/** The scheduler as a state machine: every atomic step a Submit, a read worker, a
    lane writer or a Stop can take, in any interleaving. History variables record
    what each channel accepted and handed out, and the order streams were run in. */
module Scheduler {
  import opened Wrappers

  type Sid = int

  /** A planned stream: the graph it selects and whether it writes. */
  datatype Request = Request(graph: nat, write: bool)

  /** What does not change while the scheduler runs. */
  datatype Setup = Setup(workers: nat, graphs: nat, capacity: nat, request: Sid -> Request)

  datatype Chan = Reads | Lane(graph: nat)

  /** Why a Submit was refused: shutdown, a cancelled context or a lapsed timeout. */
  datatype Cause = Shutdown | Cancelled | Full

  /** Where a Submit call stands. Looking to Unlocking are inside the read lock. */
  datatype Submit = Idle | Looking | Checking | Counting | Unlocking | Selecting | Sent
                  | GaveUp(why: Cause) | Accepted | Refused(why: Cause)

  /** Where a Stop call stands. */
  datatype Stop = Outside | Waiting | Entered | Inside | Closing | AwaitSubmits | AwaitWorkers
                | Drain(at: nat) | Relock | Clearing | Leaving | Returned

  /** Who runs streams: a read worker, a graph's writer, or Stop's final drain. */
  datatype Who = Reader(i: nat) | Writer(graph: nat) | Closer

  datatype Mode = Looping | Draining | Gone

  /** How far execute has come with a stream. */
  datatype Stage = Choosing | Acquiring | Holding | Releasing | Finishing

  datatype Job = NoJob | Job(sid: Sid, stage: Stage)

  datatype Runner = Runner(mode: Mode, job: Job)

  /** A graph's read-write lock. */
  datatype Lock = Lock(writer: Option<Who>, readers: set<Who>)

  /** What the Submits and Stops share: the scheduler's own lock, its wait group for
      Submits, the quit channel, whether the queues are set, and the stopping lock. */
  datatype Gate = Gate(
    submits: map<Sid, Submit>,
    stops: map<int, Stop>,
    muReaders: set<Sid>,
    muWriter: Option<int>,
    counted: set<Sid>,
    open: bool,
    quit: bool,
    stopping: Option<int>)
  {
    function At(x: Sid): Submit { if x in submits then submits[x] else Idle }
    function Of(i: int): Stop { if i in stops then stops[i] else Outside }
    function Moved(x: Sid, to: Submit): Gate { this.(submits := submits[x := to]) }
    function Stopped(i: int, to: Stop): Gate { this.(stops := stops[i := to]) }
  }

  /** The channels: what waits in each, and all it ever accepted and handed out. */
  datatype Line = Line(buf: map<Chan, seq<Sid>>, sent: map<Chan, seq<Sid>>, taken: map<Chan, seq<Sid>>)
  {
    function Buf(k: Chan): seq<Sid> { if k in buf then buf[k] else [] }
    function Sent(k: Chan): seq<Sid> { if k in sent then sent[k] else [] }
    function Taken(k: Chan): seq<Sid> { if k in taken then taken[k] else [] }
    function Push(k: Chan, x: Sid): Line { this.(buf := buf[k := Buf(k) + [x]], sent := sent[k := Sent(k) + [x]]) }
    function Pop(k: Chan): Line
      requires Buf(k) != []
    {
      this.(buf := buf[k := Buf(k)[1..]], taken := taken[k := Taken(k) + [Buf(k)[0]]])
    }
  }

  /** The workers, writers and final drain, and the graphs' locks. */
  datatype Crew = Crew(runners: map<Who, Runner>, locks: map<nat, Lock>, owner: map<Sid, Who>, ran: seq<Sid>,
      done: set<Sid>)
  {
    function Of(w: Who): Runner { if w in runners then runners[w] else Runner(Gone, NoJob) }
    function LockOf(g: nat): Lock { if g in locks then locks[g] else Lock(None, {}) }
    function With(w: Who, r: Runner): Crew { this.(runners := runners[w := r]) }
    function Staged(w: Who, to: Stage): Crew
      requires Of(w).job.Job?
    {
      With(w, Runner(Of(w).mode, Job(Of(w).job.sid, to)))
    }
  }

  datatype State = State(setup: Setup, gate: Gate, line: Line, crew: Crew)

  /** The channel Submit picks: a write's own lane, the read queue for the rest. A
      write past the last graph has no lane. */
  function Home(c: Setup, x: Sid): Chan {
    if c.request(x).write && c.request(x).graph < c.graphs then Lane(c.request(x).graph) else Reads
  }

  /** The channels in the order Stop drains them. */
  function ChanAt(at: nat): Chan { if at == 0 then Reads else Lane(at - 1) }

  /** The channel a runner takes from; Stop's drain takes from its current one. */
  function ChanOf(g: Gate, w: Who): Chan {
    match w
    case Reader(_) => Reads
    case Writer(n) => Lane(n)
    case Closer => if g.stopping.Some? && g.Of(g.stopping.value).Drain?
        then ChanAt(g.Of(g.stopping.value).at) else Reads
  }

  /** Start's workers and writers. */
  predicate Hired(c: Setup, w: Who) {
    match w
    case Reader(i) => i < c.workers
    case Writer(g) => g < c.graphs
    case Closer => false
  }

  // ---------------------------------------------------------------- steps

  datatype SubmitMove = LockRead | LookQueue | CheckQuit | Count | UnlockRead | Send | GiveUp(why: Cause) | Settle

  datatype RunMove = Take | SeeQuit | Exit | Choose | Acquire | Commit | Release | Finish

  datatype StopMove = Call | Enter | LockWrite | Look | UnlockWrite | SubmitsGone | WorkersGone | NextQueue | LockAgain
      | Clear | Leave

  datatype Step = Submitting(x: Sid, s: SubmitMove) | Running(w: Who, r: RunMove) | Stopping(i: int, t: StopMove)

  ghost predicate CanSubmit(s: State, x: Sid, m: SubmitMove) {
    var u := s.gate.At(x);
    match m
    case LockRead => u == Idle && s.gate.muWriter.None?
    case LookQueue => u == Looking
    case CheckQuit => u == Checking
    case Count => u == Counting
    case UnlockRead => u == Unlocking
    case Send => u == Selecting && |s.line.Buf(Home(s.setup, x))| < s.setup.capacity
    case GiveUp(why) => u == Selecting && (why == Shutdown ==> s.gate.quit)
    case Settle => u == Sent || u.GaveUp?
  }

  ghost function Submitted(g: Gate, x: Sid, m: SubmitMove): Gate {
    match m
    case LockRead => g.Moved(x, Looking).(muReaders := g.muReaders + {x})
    case LookQueue => if g.open then g.Moved(x, Checking)
        else g.Moved(x, Refused(Shutdown)).(muReaders := g.muReaders - {x})
    case CheckQuit => if g.quit then g.Moved(x, Refused(Shutdown)).(muReaders := g.muReaders - {x})
        else g.Moved(x, Counting)
    case Count => g.Moved(x, Unlocking).(counted := g.counted + {x})
    case UnlockRead => g.Moved(x, Selecting).(muReaders := g.muReaders - {x})
    case Send => g.Moved(x, Sent)
    case GiveUp(why) => g.Moved(x, GaveUp(why))
    case Settle => g.Moved(x, if g.At(x).GaveUp? then Refused(g.At(x).why) else Accepted).(counted := g.counted - {x})
  }

  /** A read may join other readers; a write needs the lock to itself. */
  predicate MayLock(c: Setup, k: Crew, x: Sid) {
    var l := k.LockOf(c.request(x).graph);
    l.writer.None? && (c.request(x).write ==> l.readers == {})
  }

  ghost predicate CanRun(s: State, w: Who, m: RunMove) {
    var r := s.crew.Of(w);
    match m
    case Take => r.mode != Gone && r.job == NoJob && s.line.Buf(ChanOf(s.gate, w)) != []
    case SeeQuit => r == Runner(Looping, NoJob) && s.gate.quit
    case Exit => r == Runner(Draining, NoJob) && w != Closer && s.line.Buf(ChanOf(s.gate, w)) == []
    case Choose => r.job.Job? && r.job.stage == Choosing
    case Acquire => r.job.Job? && r.job.stage == Acquiring && MayLock(s.setup, s.crew, r.job.sid)
    case Commit => r.job.Job? && r.job.stage == Holding
    case Release => r.job.Job? && r.job.stage == Releasing
    case Finish => r.job.Job? && r.job.stage == Finishing
  }

  /** What a runner's step does to the crew; x is the stream it takes. */
  ghost function Worked(c: Setup, k: Crew, w: Who, m: RunMove, x: Sid): Crew
    requires (m.Choose? || m.Acquire? || m.Commit? || m.Release? || m.Finish?) ==> k.Of(w).job.Job?
  {
    match m
    case Take => k.With(w, Runner(k.Of(w).mode, Job(x, Choosing))).(owner := k.owner[x := w])
    case SeeQuit => k.With(w, Runner(Draining, NoJob))
    case Exit => k.With(w, Runner(Gone, NoJob))
    case Choose =>
      if c.request(k.Of(w).job.sid).graph < c.graphs then k.Staged(w, Acquiring)
      else k.Staged(w, Finishing).(ran := k.ran + [k.Of(w).job.sid])
    case Acquire =>
      var q := c.request(k.Of(w).job.sid); var l := k.LockOf(q.graph);
      k.Staged(w, Holding).(locks := k.locks[q.graph := if q.write
          then Lock(Some(w), l.readers) else Lock(l.writer, l.readers + {w})])
    case Commit => k.Staged(w, Releasing).(ran := k.ran + [k.Of(w).job.sid])
    case Release =>
      var q := c.request(k.Of(w).job.sid); var l := k.LockOf(q.graph);
      k.Staged(w, Finishing).(locks := k.locks[q.graph := if q.write
          then Lock(None, l.readers) else Lock(l.writer, l.readers - {w})])
    case Finish => k.With(w, Runner(k.Of(w).mode, NoJob)).(done := k.done + {k.Of(w).job.sid})
  }

  ghost predicate CanStop(s: State, i: int, m: StopMove) {
    var g := s.gate;
    var t := g.Of(i);
    match m
    case Call => t == Outside
    case Enter => t == Waiting && g.stopping.None?
    case LockWrite => t == Entered && g.muWriter.None? && g.muReaders == {}
    case Look => t == Inside
    case UnlockWrite => t == Closing
    case SubmitsGone => t == AwaitSubmits && g.counted == {}
    case WorkersGone => t == AwaitWorkers && forall w :: Hired(s.setup, w) ==> s.crew.Of(w).mode == Gone
    case NextQueue => t.Drain? && s.crew.Of(Closer).job == NoJob && s.line.Buf(ChanAt(t.at)) == []
    case LockAgain => t == Relock && g.muWriter.None? && g.muReaders == {}
    case Clear => t == Clearing
    case Leave => t == Leaving
  }

  ghost function Halted(c: Setup, g: Gate, i: int, m: StopMove): Gate {
    match m
    case Call => g.Stopped(i, Waiting)
    case Enter => g.Stopped(i, Entered).(stopping := Some(i))
    case LockWrite => g.Stopped(i, Inside).(muWriter := Some(i))
    case Look => if g.open then g.Stopped(i, Closing).(quit := true) else g.Stopped(i, Leaving).(muWriter := None)
    case UnlockWrite => g.Stopped(i, AwaitSubmits).(muWriter := None)
    case SubmitsGone => g.Stopped(i, AwaitWorkers)
    case WorkersGone => g.Stopped(i, Drain(0))
    case NextQueue => if g.Of(i).Drain? && g.Of(i).at < c.graphs
        then g.Stopped(i, Drain(g.Of(i).at + 1)) else g.Stopped(i, Relock)
    case LockAgain => g.Stopped(i, Clearing).(muWriter := Some(i))
    case Clear => g.Stopped(i, Leaving).(open := false, muWriter := None)
    case Leave => g.Stopped(i, Returned).(stopping := None)
  }

  /** Stop's drain starts with the workers gone and ends with the last lane. */
  ghost function Relieved(k: Crew, g: Gate, i: int, m: StopMove): Crew {
    if m == WorkersGone then k.With(Closer, Runner(Draining, NoJob))
    else if m == NextQueue && g.Of(i) == Relock then k.With(Closer, Runner(Gone, NoJob))
    else k
  }

  ghost predicate Enabled(s: State, p: Step) {
    match p
    case Submitting(x, m) => CanSubmit(s, x, m)
    case Running(w, m) => CanRun(s, w, m)
    case Stopping(i, m) => CanStop(s, i, m)
  }

  ghost function Apply(s: State, p: Step): State
    requires Enabled(s, p)
  {
    match p
    case Submitting(x, m) =>
      s.(gate := Submitted(s.gate, x, m), line := if m == Send then s.line.Push(Home(s.setup, x), x) else s.line)
    case Running(w, m) =>
      var k := ChanOf(s.gate, w);
      if m == Take then s.(line := s.line.Pop(k), crew := Worked(s.setup, s.crew, w, m, s.line.Buf(k)[0]))
      else s.(crew := Worked(s.setup, s.crew, w, m, 0))
    case Stopping(i, m) =>
      var g := Halted(s.setup, s.gate, i, m);
      s.(gate := g, crew := Relieved(s.crew, g, i, m))
  }

  /** A scheduler Start has just started: nothing submitted, every channel empty. */
  ghost predicate Fresh(s: State) {
    && (forall x :: s.gate.At(x) == Idle) && (forall i :: s.gate.Of(i) == Outside)
    && s.gate.muReaders == {} && s.gate.muWriter == None && s.gate.counted == {} && s.gate.open && !s.gate.quit
       && s.gate.stopping == None
    && (forall k :: s.line.Buf(k) == [] && s.line.Sent(k) == [] && s.line.Taken(k) == [])
    && (forall w :: s.crew.Of(w) == Runner(if Hired(s.setup, w) then Looping else Gone, NoJob))
    && (forall g :: s.crew.LockOf(g) == Lock(None, {})) && s.crew.owner == map[] && s.crew.ran == []
       && s.crew.done == {}
  }

  // ---------------------------------------------------------------- the gate

  /** The places of Submit under the read lock, and those the wait group counts. */
  predicate Locked(u: Submit) { u == Looking || u == Checking || u == Counting || u == Unlocking }

  predicate Counted(u: Submit) { u == Unlocking || u == Selecting || u == Sent || u.GaveUp? }

  /** The places of Stop holding the write lock, and those holding the stopping lock. */
  predicate Writing(t: Stop) { t == Inside || t == Closing || t == Clearing }

  predicate Serving(t: Stop) { t != Outside && t != Waiting && t != Returned }

  /** The read lock and the wait group record exactly which Submits are inside them. */
  ghost predicate Attended(g: Gate) {
    && (forall x :: x in g.muReaders <==> Locked(g.At(x)))
    && (forall x :: x in g.counted <==> Counted(g.At(x)))
    && (g.muWriter.Some? ==> g.muReaders == {})
  }

  /** The write lock and the stopping lock record exactly which Stop holds them. */
  ghost predicate Served(g: Gate) {
    && (forall i :: g.muWriter == Some(i) <==> Writing(g.Of(i)))
    && (forall i :: g.stopping == Some(i) <==> Serving(g.Of(i)))
  }

  /** A Stop that has closed quit and not yet cleared the queues. */
  predicate Told(t: Stop) { t == Closing || t == AwaitSubmits || Quiet(t) }

  /** A Stop that has waited for every counted Submit. */
  predicate Quiet(t: Stop) { t == AwaitWorkers || Late(t) }

  /** A Stop that has waited for every worker and writer as well. */
  predicate Late(t: Stop) { t.Drain? || t == Relock || t == Clearing }

  /** quit is closed once, by the Stop in charge; from then on nobody enters the
      wait group, and past the wait nobody is in it. */
  ghost predicate Shut(g: Gate) {
    && (forall i :: Told(g.Of(i)) ==> g.quit && g.open)
    && (g.quit && g.open ==> g.stopping.Some? && Told(g.Of(g.stopping.value)))
    && (g.quit ==> forall x :: g.At(x) != Counting && g.At(x) != Unlocking)
    && (!g.open ==> g.quit && g.counted == {})
  }

  predicate Shunned(u: Submit) { (u.GaveUp? || u.Refused?) && u.why == Shutdown }

  ghost predicate Settled(g: Gate) {
    && (forall i :: Quiet(g.Of(i)) ==> g.counted == {})
    && (forall i :: g.Of(i) == Leaving || g.Of(i) == Returned ==> !g.open)
    && (forall x :: Shunned(g.At(x)) ==> g.quit)
  }

  ghost predicate Guarded(g: Gate) { Attended(g) && Served(g) && Shut(g) && Settled(g) }

  lemma SubmitAttended(s: State, x: Sid, m: SubmitMove)
    requires Attended(s.gate) && CanSubmit(s, x, m)
    ensures Attended(Submitted(s.gate, x, m))
  {
  }

  lemma SubmitShut(s: State, x: Sid, m: SubmitMove)
    requires Guarded(s.gate) && CanSubmit(s, x, m)
    ensures Served(Submitted(s.gate, x, m)) && Shut(Submitted(s.gate, x, m)) && Settled(Submitted(s.gate, x, m))
  {
    var g := Submitted(s.gate, x, m);
    assert g.stops == s.gate.stops && g.stopping == s.gate.stopping;
    assert forall i :: g.Of(i) == s.gate.Of(i);
    assert forall y :: y != x ==> g.At(y) == s.gate.At(y);
  }

  lemma StopAttended(s: State, i: int, m: StopMove)
    requires Attended(s.gate) && CanStop(s, i, m)
    ensures Attended(Halted(s.setup, s.gate, i, m))
  {
    var g := Halted(s.setup, s.gate, i, m);
    assert g.submits == s.gate.submits;
    assert forall x :: g.At(x) == s.gate.At(x);
  }

  /** A Stop's step changes no Submit and no other Stop. */
  lemma StopAlone(s: State, i: int, m: StopMove)
    requires CanStop(s, i, m)
    ensures var g := Halted(s.setup, s.gate, i, m);
            && g.submits == s.gate.submits && g.counted == s.gate.counted && (forall x :: g.At(x) == s.gate.At(x))
            && (forall j :: j != i ==> g.Of(j) == s.gate.Of(j) && (j in g.stops <==> j in s.gate.stops))
            && g.quit == (s.gate.quit || (m == Look && s.gate.open)) && g.open == (s.gate.open && m != Clear)
            && g.stopping == (if m == Enter then Some(i) else if m == Leave then None else s.gate.stopping)
            && g.muWriter == (if m == LockWrite || m == LockAgain then Some(i)
                              else if m == UnlockWrite || m == Clear || (m == Look && !s.gate.open) then None
                                  else s.gate.muWriter)
  {
  }

  /** Where a Stop's step takes it: which locks it holds. */
  lemma StopPlaces(s: State, i: int, m: StopMove)
    requires CanStop(s, i, m)
    ensures var t, u := s.gate.Of(i), Halted(s.setup, s.gate, i, m).Of(i);
            && (Serving(t) <==> m != Call && m != Enter) && (Serving(u) <==> m != Call && m != Leave)
            && (Writing(t) <==> m == Look || m == UnlockWrite || m == Clear)
            && (Writing(u) <==> m == LockWrite || m == LockAgain || (m == Look && s.gate.open))
            && (m == LockWrite || m == LockAgain ==> s.gate.muWriter.None?) && (m == Enter ==> s.gate.stopping.None?)
  {
  }

  /** And whether it has closed quit. */
  lemma StopTells(s: State, i: int, m: StopMove)
    requires CanStop(s, i, m)
    ensures var t, u := s.gate.Of(i), Halted(s.setup, s.gate, i, m).Of(i);
            (Told(u) <==> (m == Look && s.gate.open) || (Told(t) && m != Clear)) && (m == Look ==> t == Inside)
            && (m == Clear ==> t == Clearing && Told(t)) && (m == Leave ==> t == Leaving)
  {
  }

  lemma StopServed(s: State, i: int, m: StopMove)
    requires Served(s.gate) && CanStop(s, i, m)
    ensures Served(Halted(s.setup, s.gate, i, m))
  {
    hide Halted, CanStop, Serving, Writing;
    StopAlone(s, i, m);
    StopPlaces(s, i, m);
    assert Serving(s.gate.Of(i)) <==> s.gate.stopping == Some(i);
    assert Writing(s.gate.Of(i)) <==> s.gate.muWriter == Some(i);
    var g := Halted(s.setup, s.gate, i, m);
    assert g.stopping == Some(i) <==> Serving(g.Of(i));
    assert g.muWriter == Some(i) <==> Writing(g.Of(i));
    assert forall j :: j != i ==> (g.stopping == Some(j) <==> Serving(g.Of(j)));
    assert forall j :: j != i ==> (g.muWriter == Some(j) <==> Writing(g.Of(j)));
  }

  lemma StopShut(s: State, i: int, m: StopMove)
    requires Guarded(s.gate) && CanStop(s, i, m)
    ensures Shut(Halted(s.setup, s.gate, i, m)) && Settled(Halted(s.setup, s.gate, i, m))
  {
    StopCloses(s, i, m);
    StopSettles(s, i, m);
  }

  lemma StopCloses(s: State, i: int, m: StopMove)
    requires Guarded(s.gate) && CanStop(s, i, m)
    ensures Shut(Halted(s.setup, s.gate, i, m))
  {
    hide Attended, Shunned, Locked, Halted, CanStop, Writing, Serving, Told;
    StopAlone(s, i, m);
    StopPlaces(s, i, m);
    StopTells(s, i, m);
    if m == Look {
      InsideAlone(s.gate, i);
    }
    ToldServes(s.gate);
    assert Serving(s.gate.Of(i)) <==> s.gate.stopping == Some(i);
    var g := Halted(s.setup, s.gate, i, m);
    assert forall j :: Told(g.Of(j)) ==> g.quit && g.open;
    assert g.quit && g.open ==> g.stopping.Some? && Told(g.Of(g.stopping.value));
    assert g.quit ==> forall x :: g.At(x) != Counting && g.At(x) != Unlocking;
    assert !g.open ==> g.quit && g.counted == {};
  }

  lemma ToldServes(g: Gate)
    ensures forall i :: Told(g.Of(i)) ==> Serving(g.Of(i))
  {
  }

  /** While a Stop holds the write lock no Submit is inside the read lock. */
  lemma InsideAlone(g: Gate, i: int)
    requires Attended(g) && Served(g) && g.Of(i) == Inside
    ensures forall x :: g.At(x) != Counting && g.At(x) != Unlocking
  {
  }

  lemma StopSettles(s: State, i: int, m: StopMove)
    requires Guarded(s.gate) && CanStop(s, i, m)
    ensures Settled(Halted(s.setup, s.gate, i, m))
  {
    hide Attended, Served, Locked, Counted;
    var g := Halted(s.setup, s.gate, i, m);
    StopAlone(s, i, m);
    assert Quiet(g.Of(i)) ==> g.counted == {};
    assert g.Of(i) == Leaving || g.Of(i) == Returned ==> !g.open;
    hide Halted, CanStop;
  }

  // ---------------------------------------------------------------- the crew

  /** Workers and writers are gone once Stop has waited for them; the final drain
      works exactly while Stop walks the channels. */
  ghost predicate Staffed(s: State) {
    && (forall w :: s.crew.Of(w).mode == Gone ==> s.crew.Of(w).job == NoJob)
    && (forall w :: w != Closer && !Hired(s.setup, w) ==> s.crew.Of(w).mode == Gone)
    && s.crew.Of(Closer).mode == (if s.gate.stopping.Some?
       && s.gate.Of(s.gate.stopping.value).Drain? then Draining else Gone)
    && (forall i :: Late(s.gate.Of(i)) ==> forall w :: Hired(s.setup, w) ==> s.crew.Of(w).mode == Gone)
    && (!s.gate.open ==> forall w :: Hired(s.setup, w) ==> s.crew.Of(w).mode == Gone)
  }

  lemma SubmitStaffed(s: State, x: Sid, m: SubmitMove)
    requires Staffed(s) && CanSubmit(s, x, m)
    ensures Staffed(Apply(s, Submitting(x, m)))
  {
    var g := Submitted(s.gate, x, m);
    assert g.stops == s.gate.stops && g.stopping == s.gate.stopping && g.open == s.gate.open;
    assert forall i :: g.Of(i) == s.gate.Of(i);
  }

  lemma RunStaffed(s: State, w: Who, m: RunMove)
    requires Staffed(s) && CanRun(s, w, m)
    ensures Staffed(Apply(s, Running(w, m)))
  {
    var k := Apply(s, Running(w, m)).crew;
    assert forall v :: v != w ==> k.Of(v) == s.crew.Of(v);
    assert k.Of(w).mode == s.crew.Of(w).mode || (w != Closer && s.crew.Of(w).mode != Gone);
    assert k.Of(w).mode == Gone ==> k.Of(w).job == NoJob;
    assert s.crew.Of(w).mode == Gone ==> k.Of(w).mode == Gone;
  }

  /** A Stop is late once the workers are gone; its drain lasts until the last queue. */
  lemma StopLate(s: State, i: int, m: StopMove)
    requires CanStop(s, i, m)
    ensures var u := Halted(s.setup, s.gate, i, m).Of(i);
            && (Late(u) <==> m == WorkersGone || m == NextQueue || m == LockAgain)
            && (Late(u) && m != WorkersGone ==> Late(s.gate.Of(i))) && (m == Clear ==> Late(s.gate.Of(i)))
            && (u.Drain? <==> m == WorkersGone || (m == NextQueue && u != Relock))
            && (s.gate.Of(i).Drain? <==> m == NextQueue)
            && (Serving(s.gate.Of(i)) <==> m != Call && m != Enter)
  {
  }

  lemma StopStaffed(s: State, i: int, m: StopMove)
    requires Staffed(s) && Guarded(s.gate) && CanStop(s, i, m)
    ensures Staffed(Apply(s, Stopping(i, m)))
  {
    hide Attended, Shut, Settled, Halted;
    var t := Apply(s, Stopping(i, m));
    StopAlone(s, i, m);
    StopLate(s, i, m);
    assert forall w :: w != Closer ==> t.crew.Of(w) == s.crew.Of(w);
    assert Serving(s.gate.Of(i)) <==> s.gate.stopping == Some(i);
  }

  // ---------------------------------------------------------------- the channels

  ghost predicate Distinct<A>(s: seq<A>) {
    forall i, j :: 0 <= i < j < |s| ==> s[i] != s[j]
  }

  /** A stream Submit has put on its channel. */
  predicate IsSent(u: Submit) { u == Sent || u == Accepted }

  /** Channels conserve: all a channel accepted is what it handed out, then what
      waits in it, each stream once, on the channel the stream belongs to. */
  ghost predicate Conserved(s: State) {
    && (forall k :: s.line.Sent(k) == s.line.Taken(k) + s.line.Buf(k))
    && (forall k :: Distinct(s.line.Sent(k)))
    && (forall k, x :: x in s.line.Sent(k) ==> Home(s.setup, x) == k && IsSent(s.gate.At(x)))
    && (forall x :: IsSent(s.gate.At(x)) ==> x in s.line.Sent(Home(s.setup, x)))
  }

  lemma SendConserved(s: State, x: Sid)
    requires Conserved(s) && CanSubmit(s, x, Send)
    ensures Conserved(Apply(s, Submitting(x, Send)))
  {
    var t := Apply(s, Submitting(x, Send));
    var h := Home(s.setup, x);
    assert t.line == s.line.Push(h, x) && t.gate == s.gate.Moved(x, Sent);
    assert t.gate.At(x) == Sent;
    assert forall y :: y != x ==> t.gate.At(y) == s.gate.At(y);
    hide Enabled, Apply, CanSubmit, Submitted, Distinct;
    assert x !in s.line.Sent(h);
    DistinctMore(s.line.Sent(h), x);
    assert forall k :: k != h ==> t.line.Sent(k) == s.line.Sent(k) && t.line.Buf(k) == s.line.Buf(k);
    assert forall k :: t.line.Taken(k) == s.line.Taken(k);
    assert t.line.Sent(h) == s.line.Sent(h) + [x] && t.line.Buf(h) == s.line.Buf(h) + [x];
  }

  lemma SubmitConserved(s: State, x: Sid, m: SubmitMove)
    requires Conserved(s) && CanSubmit(s, x, m)
    ensures Conserved(Apply(s, Submitting(x, m)))
  {
    if m == Send {
      SendConserved(s, x);
    } else {
      var t := Apply(s, Submitting(x, m));
      assert t.line == s.line;
      assert forall y :: y != x ==> t.gate.At(y) == s.gate.At(y);
      assert IsSent(t.gate.At(x)) <==> IsSent(s.gate.At(x));
    }
  }

  lemma RunConserved(s: State, w: Who, m: RunMove)
    requires Conserved(s) && CanRun(s, w, m)
    ensures Conserved(Apply(s, Running(w, m)))
  {
    var t := Apply(s, Running(w, m));
    if m == Take {
      var h := ChanOf(s.gate, w);
      assert t.line.sent == s.line.sent;
      assert forall k :: t.line.Sent(k) == s.line.Sent(k);
      assert forall k :: k != h ==> t.line.Taken(k) == s.line.Taken(k) && t.line.Buf(k) == s.line.Buf(k);
      assert t.line.Taken(h) + t.line.Buf(h) == s.line.Taken(h) + s.line.Buf(h);
    }
  }

  lemma StopConserved(s: State, i: int, m: StopMove)
    requires Conserved(s) && CanStop(s, i, m)
    ensures Conserved(Apply(s, Stopping(i, m)))
  {
    var t := Apply(s, Stopping(i, m));
    assert forall y :: t.gate.At(y) == s.gate.At(y);
  }

  predicate IsChan(c: Setup, k: Chan) { k.Lane? ==> k.graph < c.graphs }

  /** Stop's drain leaves every channel it has walked past empty. */
  ghost predicate Emptied(s: State) {
    && (forall i :: s.gate.Of(i).Drain? ==> s.gate.Of(i).at <= s.setup.graphs)
    && (forall i, j: nat :: s.gate.Of(i).Drain? && j < s.gate.Of(i).at ==> s.line.Buf(ChanAt(j)) == [])
    && (forall i, k :: (s.gate.Of(i) == Relock || s.gate.Of(i) == Clearing) && IsChan(s.setup, k) ==>
       s.line.Buf(k) == [])
    && (forall k :: !s.gate.open && IsChan(s.setup, k) ==> s.line.Buf(k) == [])
  }

  lemma SubmitEmptied(s: State, x: Sid, m: SubmitMove)
    requires Emptied(s) && Guarded(s.gate) && CanSubmit(s, x, m)
    ensures Emptied(Apply(s, Submitting(x, m)))
  {
    var t := Apply(s, Submitting(x, m));
    assert t.gate.stops == s.gate.stops && t.gate.open == s.gate.open;
    assert forall i :: t.gate.Of(i) == s.gate.Of(i);
    if m == Send {
      assert x in s.gate.counted;
      assert forall i :: !Quiet(s.gate.Of(i));
    }
  }

  lemma RunEmptied(s: State, w: Who, m: RunMove)
    requires Emptied(s) && CanRun(s, w, m)
    ensures Emptied(Apply(s, Running(w, m)))
  {
    var t := Apply(s, Running(w, m));
    assert forall k :: s.line.Buf(k) == [] ==> t.line.Buf(k) == [];
  }

  /** The last channel drained, they are all empty. */
  lemma LastQueue(s: State, i: int, k: Chan)
    requires Emptied(s) && CanStop(s, i, NextQueue) && s.gate.Of(i).at == s.setup.graphs && IsChan(s.setup, k)
    ensures s.line.Buf(k) == []
  {
    var j: nat := if k == Reads then 0 else k.graph + 1;
    assert ChanAt(j) == k;
  }

  lemma NextEmptied(s: State, i: int)
    requires Emptied(s) && Guarded(s.gate) && CanStop(s, i, NextQueue)
    ensures Emptied(Apply(s, Stopping(i, NextQueue)))
  {
    hide Attended, Shut, Settled, Served;
    var t := Apply(s, Stopping(i, NextQueue));
    assert t.line == s.line && t.gate.open == s.gate.open;
    assert t.gate.Of(i) == if s.gate.Of(i).at < s.setup.graphs then Drain(s.gate.Of(i).at + 1) else Relock;
    assert forall j :: j != i ==> t.gate.Of(j) == s.gate.Of(j);
    if s.gate.Of(i).at == s.setup.graphs {
      forall k | IsChan(s.setup, k) ensures s.line.Buf(k) == [] {
        LastQueue(s, i, k);
      }
    }
  }

  lemma StopEmptied(s: State, i: int, m: StopMove)
    requires Emptied(s) && Guarded(s.gate) && CanStop(s, i, m)
    ensures Emptied(Apply(s, Stopping(i, m)))
  {
    if m == NextQueue {
      NextEmptied(s, i);
    } else {
      hide Guarded, Halted, Relieved;
      var t := Apply(s, Stopping(i, m));
      StopAlone(s, i, m);
      StopArrives(s, i, m);
      hide CanStop;
    }
  }

  /** Where a Stop's step can take it, and from where. */
  lemma StopArrives(s: State, i: int, m: StopMove)
    requires CanStop(s, i, m) && m != NextQueue
    ensures var u := Halted(s.setup, s.gate, i, m).Of(i);
            (u.Drain? ==> u.at == 0 && m == WorkersGone) && u != Relock && (u == Clearing ==> s.gate.Of(i) == Relock)
                && (m == Clear ==> s.gate.Of(i) == Clearing)
  {
  }

  // ---------------------------------------------------------------- the streams

  predicate Before(stage: Stage) { stage == Choosing || stage == Acquiring || stage == Holding }

  /** A stream handed out is finished or in its owner's hands, and in nobody else's. */
  ghost predicate Handed(c: Setup, n: Line, k: Crew) {
    && (forall x :: x in k.owner <==> x in n.Taken(Home(c, x)))
    && (forall x :: x in k.owner && x !in k.done ==> k.Of(k.owner[x]).job.Job? && k.Of(k.owner[x]).job.sid == x)
    && (forall w :: k.Of(w).job.Job? ==>
       k.Of(w).job.sid in k.owner && k.owner[k.Of(w).job.sid] == w && k.Of(w).job.sid !in k.done)
  }

  /** A stream runs once, and has run exactly when its runner is past running it. */
  ghost predicate RanOnce(k: Crew) {
    && (forall w :: k.Of(w).job.Job? ==> (k.Of(w).job.sid in k.ran <==> !Before(k.Of(w).job.stage)))
    && (forall x :: x in k.done ==> x in k.ran)
    && (forall x :: x in k.ran ==> x in k.owner)
    && Distinct(k.ran)
  }

  lemma RunHanded(s: State, w: Who, m: RunMove)
    requires Handed(s.setup, s.line, s.crew) && CanRun(s, w, m) && m != Take
    ensures Handed(s.setup, s.line, Apply(s, Running(w, m)).crew)
  {
    var t := Apply(s, Running(w, m));
    assert t.crew.owner == s.crew.owner;
    assert forall v :: v != w ==> t.crew.Of(v) == s.crew.Of(v);
  }

  lemma RunRanOnce(s: State, w: Who, m: RunMove)
    requires Handed(s.setup, s.line, s.crew) && RanOnce(s.crew) && CanRun(s, w, m) && m != Take
    ensures RanOnce(Apply(s, Running(w, m)).crew)
  {
    hide Distinct, CanRun, Worked;
    var t := Apply(s, Running(w, m));
    var j := s.crew.Of(w).job;
    RanStep(s, w, m);
    assert forall v :: v != w && s.crew.Of(v).job.Job? && j.Job? ==> s.crew.Of(v).job.sid != j.sid;
    if t.crew.ran != s.crew.ran {
      DistinctMore(s.crew.ran, j.sid);
    }
  }

  lemma DistinctMore<A>(s: seq<A>, x: A)
    requires Distinct(s) && x !in s
    ensures Distinct(s + [x])
  {
  }

  /** What a step other than Take changes of a runner: where it is with its stream. */
  lemma RanStep(s: State, w: Who, m: RunMove)
    requires CanRun(s, w, m) && m != Take
    ensures var k, l := s.crew, Apply(s, Running(w, m)).crew;
            var i, j := k.Of(w).job, l.Of(w).job;
            && l.owner == k.owner && (forall v :: v != w ==> l.Of(v) == k.Of(v))
            && (i == NoJob ==> j == NoJob && l.ran == k.ran && l.done == k.done)
            && (i.Job? && Before(i.stage) ==>
                  j.Job? && j.sid == i.sid && l.done == k.done
                  && (if Before(j.stage) then l.ran == k.ran else l.ran == k.ran + [i.sid]))
            && (i.Job? && !Before(i.stage) ==>
                  l.ran == k.ran && (if j.Job? then j.sid == i.sid && !Before(j.stage)
                      && l.done == k.done else l.done == k.done + {i.sid}))
  {
    hide ChanOf, Home, MayLock;
  }

  /** The head of what waits has not been handed out. */
  lemma HeadIsNew(a: seq<Sid>, b: seq<Sid>)
    requires Distinct(a + b) && b != []
    ensures b[0] !in a
  {
    forall i | 0 <= i < |a| ensures a[i] != b[0] {
      assert (a + b)[i] != (a + b)[|a|];
    }
  }

  lemma TakeHanded(s: State, w: Who)
    requires Handed(s.setup, s.line, s.crew) && RanOnce(s.crew) && Conserved(s) && CanRun(s, w, Take)
    ensures Handed(s.setup, Apply(s, Running(w, Take)).line, Apply(s, Running(w, Take)).crew)
    ensures RanOnce(Apply(s, Running(w, Take)).crew)
  {
    var h := ChanOf(s.gate, w);
    HeadIsNew(s.line.Taken(h), s.line.Buf(h));
    var x := s.line.Buf(h)[0];
    assert x in s.line.Sent(h);
    assert Home(s.setup, x) == h && x !in s.line.Taken(h);
    hide Conserved, ChanOf, Home, Distinct;
    assert x !in s.crew.owner;
    TakenFrom(s.setup, s.line, s.crew, w, h);
    TakenNotRun(s.setup, s.crew, w, x);
  }

  lemma TakenFrom(c: Setup, n: Line, k: Crew, w: Who, h: Chan)
    requires Handed(c, n, k) && n.Buf(h) != [] && Home(c, n.Buf(h)[0]) == h && n.Buf(h)[0] !in n.Taken(h)
    requires k.Of(w).job == NoJob && n.Buf(h)[0] !in k.done
    ensures Handed(c, n.Pop(h), Worked(c, k, w, Take, n.Buf(h)[0]))
    ensures n.Buf(h)[0] !in k.owner
  {
    hide Home, Worked, Line.Pop;
    var x := n.Buf(h)[0];
    assert x !in k.owner;
    TakeStep(c, n, k, w, h);
  }

  lemma TakeStep(c: Setup, n: Line, k: Crew, w: Who, h: Chan)
    requires n.Buf(h) != []
    ensures var x := n.Buf(h)[0];
            var t, l := Worked(c, k, w, Take, x), n.Pop(h);
            && l.Taken(h) == n.Taken(h) + [x] && (forall q :: q != h ==> l.Taken(q) == n.Taken(q))
            && (forall v :: v != w ==> t.Of(v) == k.Of(v)) && t.Of(w).job == Job(x, Choosing)
            && t.owner == k.owner[x := w] && t.done == k.done
  {
  }

  lemma TakenNotRun(c: Setup, k: Crew, w: Who, x: Sid)
    requires RanOnce(k) && x !in k.owner && k.Of(w).job == NoJob
    ensures RanOnce(Worked(c, k, w, Take, x))
  {
    var t := Worked(c, k, w, Take, x);
    assert forall v :: v != w ==> t.Of(v) == k.Of(v);
    assert t.owner == k.owner[x := w] && t.ran == k.ran && t.done == k.done;
  }

  /** Everyone's stream comes from the channel they take from, and is past Choosing
      only on a graph that exists. */
  ghost predicate Stationed(s: State) {
    forall w :: s.crew.Of(w).job.Job? ==>
      && Home(s.setup, s.crew.Of(w).job.sid) == ChanOf(s.gate, w)
      && (s.crew.Of(w).job.stage != Choosing && s.crew.Of(w).job.stage != Finishing ==>
            s.setup.request(s.crew.Of(w).job.sid).graph < s.setup.graphs)
  }

  lemma SubmitStationed(s: State, x: Sid, m: SubmitMove)
    requires Stationed(s) && CanSubmit(s, x, m)
    ensures Stationed(Apply(s, Submitting(x, m)))
  {
    var t := Apply(s, Submitting(x, m));
    assert t.gate.stops == s.gate.stops && t.gate.stopping == s.gate.stopping && t.crew == s.crew;
    assert forall w :: ChanOf(t.gate, w) == ChanOf(s.gate, w);
  }

  lemma RunStationed(s: State, w: Who, m: RunMove)
    requires Stationed(s) && Conserved(s) && CanRun(s, w, m)
    ensures Stationed(Apply(s, Running(w, m)))
  {
    var t := Apply(s, Running(w, m));
    assert t.gate == s.gate;
    assert forall v :: v != w ==> t.crew.Of(v) == s.crew.Of(v);
    if m == Take {
      assert s.line.Buf(ChanOf(s.gate, w))[0] in s.line.Sent(ChanOf(s.gate, w));
    }
  }

  lemma StopStationed(s: State, i: int, m: StopMove)
    requires Stationed(s) && Staffed(s) && Guarded(s.gate) && CanStop(s, i, m)
    ensures Stationed(Apply(s, Stopping(i, m)))
  {
    var t := Apply(s, Stopping(i, m));
    assert forall w :: w != Closer ==> t.crew.Of(w) == s.crew.Of(w) && ChanOf(t.gate, w) == ChanOf(s.gate, w);
    assert t.crew.Of(Closer).job == s.crew.Of(Closer).job;
    assert t.crew.Of(Closer).job.Job? ==> ChanOf(t.gate, Closer) == ChanOf(s.gate, Closer);
  }

  // ---------------------------------------------------------------- graph locks

  /** Whether w runs a stream on graph g under its lock, as a write or as a read. */
  predicate Holds(c: Setup, k: Crew, w: Who, g: nat, write: bool) {
    var j := k.Of(w).job;
    j.Job? && (j.stage == Holding || j.stage == Releasing) && c.request(j.sid).graph == g
        && c.request(j.sid).write == write
  }

  /** Each lock records exactly who runs on its graph, and a writer runs alone. */
  ghost predicate Exclusive(c: Setup, k: Crew) {
    && (forall w, g :: k.LockOf(g).writer == Some(w) <==> Holds(c, k, w, g, true))
    && (forall w, g :: w in k.LockOf(g).readers <==> Holds(c, k, w, g, false))
    && (forall g :: k.LockOf(g).writer.Some? ==> k.LockOf(g).readers == {})
  }

  lemma RunExclusive(s: State, w: Who, m: RunMove)
    requires Exclusive(s.setup, s.crew) && CanRun(s, w, m)
    ensures Exclusive(s.setup, Apply(s, Running(w, m)).crew)
  {
    if m == Acquire || m == Release {
      LockStep(s, w, m);
    } else {
      LocksStay(s, w, m);
    }
  }

  lemma LocksStay(s: State, w: Who, m: RunMove)
    requires Exclusive(s.setup, s.crew) && CanRun(s, w, m) && m != Acquire && m != Release
    ensures Exclusive(s.setup, Apply(s, Running(w, m)).crew)
  {
    hide ChanOf, Home, MayLock;
    var t := Apply(s, Running(w, m));
    assert t.crew.locks == s.crew.locks;
    assert forall v :: v != w ==> t.crew.Of(v) == s.crew.Of(v);
    assert forall g :: t.crew.LockOf(g) == s.crew.LockOf(g);
    assert forall v, g, b :: Holds(s.setup, t.crew, v, g, b) == Holds(s.setup, s.crew, v, g, b);
  }

  lemma LockStep(s: State, w: Who, m: RunMove)
    requires Exclusive(s.setup, s.crew) && CanRun(s, w, m) && (m == Acquire || m == Release)
    ensures Exclusive(s.setup, Apply(s, Running(w, m)).crew)
  {
    hide ChanOf, Home;
    var t := Apply(s, Running(w, m));
    var q := s.setup.request(s.crew.Of(w).job.sid);
    assert forall v :: v != w ==> t.crew.Of(v) == s.crew.Of(v);
    assert forall v, g, b :: v != w ==> Holds(s.setup, t.crew, v, g, b) == Holds(s.setup, s.crew, v, g, b);
    assert forall g :: g != q.graph ==> t.crew.LockOf(g) == s.crew.LockOf(g);
    assert Holds(s.setup, s.crew, w, q.graph, q.write) == (m == Release);
    assert Holds(s.setup, t.crew, w, q.graph, q.write) == (m == Acquire);
  }

  // ---------------------------------------------------------------- lane order

  /** The streams of one channel, in the order they were run. */
  ghost function RanOn(c: Setup, ran: seq<Sid>, k: Chan): seq<Sid> {
    if ran == [] then [] else
      var x := ran[|ran| - 1];
      RanOn(c, ran[..|ran| - 1], k) + (if Home(c, x) == k then [x] else [])
  }

  /** The stream a runner has taken from a channel and not run yet. */
  function InHand(c: Setup, k: Crew, w: Who, h: Chan): seq<Sid> {
    var j := k.Of(w).job;
    if j.Job? && Before(j.stage) && Home(c, j.sid) == h then [j.sid] else []
  }

  /** What a lane handed out is what was run of it, then the stream in hand. */
  ghost predicate InOrderOn(c: Setup, n: Line, k: Crew, g: nat) {
    n.Taken(Lane(g)) == RanOn(c, k.ran, Lane(g)) + InHand(c, k, Writer(g), Lane(g)) + InHand(c, k, Closer, Lane(g))
  }

  /** Every lane's writes are run in the order they are handed out. */
  ghost predicate InOrder(s: State) {
    forall g: nat :: InOrderOn(s.setup, s.line, s.crew, g)
  }

  lemma RanOnAppend(c: Setup, ran: seq<Sid>, x: Sid, k: Chan)
    ensures RanOn(c, ran + [x], k) == RanOn(c, ran, k) + (if Home(c, x) == k then [x] else [])
  {
    assert (ran + [x])[..|ran|] == ran;
  }

  /** The final drain and a lane's writer never both hold a stream. */
  lemma Alone(s: State, g: nat)
    requires Staffed(s)
    ensures s.crew.Of(Closer).job == NoJob || s.crew.Of(Writer(g)).job == NoJob
  {
    if s.crew.Of(Closer).job != NoJob {
      assert Late(s.gate.Of(s.gate.stopping.value));
    }
  }

  lemma TakeInOrder(s: State, w: Who, g: nat)
    requires InOrderOn(s.setup, s.line, s.crew, g) && Staffed(s) && CanRun(s, w, Take)
    requires Home(s.setup, s.line.Buf(ChanOf(s.gate, w))[0]) == ChanOf(s.gate, w)
    ensures InOrderOn(s.setup, Apply(s, Running(w, Take)).line, Apply(s, Running(w, Take)).crew, g)
  {
    var t := Apply(s, Running(w, Take));
    var h := ChanOf(s.gate, w);
    var x := s.line.Buf(h)[0];
    Alone(t, g) by { RunStaffed(s, w, Take); }
    assert t.crew.Of(w).job == Job(x, Choosing) && s.crew.Of(w).job == NoJob && t.crew.ran == s.crew.ran;
    assert forall v :: v != w ==> t.crew.Of(v) == s.crew.Of(v);
    assert w != Closer && w != Writer(g) ==> h != Lane(g);
    hide Staffed, CanRun, Worked, Apply, ChanOf, RanOn;
    if h == Lane(g) {
      assert t.line.Taken(h) == s.line.Taken(h) + [x];
    } else {
      assert t.line.Taken(Lane(g)) == s.line.Taken(Lane(g));
    }
  }

  /** A step other than Take either runs the stream in hand or leaves both alone. */
  lemma RunsInHand(s: State, w: Who, m: RunMove, h: Chan)
    requires CanRun(s, w, m) && m != Take
    ensures var t := Apply(s, Running(w, m));
            && (forall v :: v != w ==> t.crew.Of(v) == s.crew.Of(v))
            && (|| (t.crew.ran == s.crew.ran && InHand(s.setup, t.crew, w, h) == InHand(s.setup, s.crew, w, h))
                || (&& s.crew.Of(w).job.Job? && Before(s.crew.Of(w).job.stage)
                    && t.crew.ran == s.crew.ran + [s.crew.Of(w).job.sid] && InHand(s.setup, t.crew, w, h) == []))
  {
  }

  lemma LaneRunner(s: State, w: Who, g: nat)
    requires Stationed(s) && s.crew.Of(w).job.Job? && Home(s.setup, s.crew.Of(w).job.sid) == Lane(g)
    ensures w == Writer(g) || w == Closer
  {
  }

  lemma RunInOrderOn(s: State, w: Who, m: RunMove, g: nat)
    requires InOrderOn(s.setup, s.line, s.crew, g) && Staffed(s) && Stationed(s) && CanRun(s, w, m) && m != Take
    ensures InOrderOn(s.setup, s.line, Apply(s, Running(w, m)).crew, g)
  {
    hide Staffed, Stationed, CanRun, Worked, Apply, RanOn, ChanOf, Home;
    var t := Apply(s, Running(w, m));
    var j := s.crew.Of(w).job;
    Alone(s, g);
    RunsInHand(s, w, m, Lane(g));
    if t.crew.ran != s.crew.ran {
      RanOnAppend(s.setup, s.crew.ran, j.sid, Lane(g));
      if Home(s.setup, j.sid) == Lane(g) {
        LaneRunner(s, w, g);
      }
    }
  }

  lemma RunInOrder(s: State, w: Who, m: RunMove)
    requires InOrder(s) && Staffed(s) && Stationed(s) && Conserved(s) && CanRun(s, w, m)
    ensures InOrder(Apply(s, Running(w, m)))
  {
    hide Staffed, Stationed, Home, RanOn, InHand;
    var t := Apply(s, Running(w, m));
    forall g: nat ensures InOrderOn(t.setup, t.line, t.crew, g) {
      assert InOrderOn(s.setup, s.line, s.crew, g);
      if m == Take {
        var h := ChanOf(s.gate, w);
        assert s.line.Buf(h)[0] in s.line.Sent(h);
        TakeInOrder(s, w, g);
      } else {
        RunInOrderOn(s, w, m, g);
      }
    }
  }

  // ---------------------------------------------------------------- every run

  ghost predicate Inv(s: State) {
    && Guarded(s.gate) && Staffed(s) && Conserved(s) && Emptied(s)
    && Handed(s.setup, s.line, s.crew) && RanOnce(s.crew) && Stationed(s)
    && Exclusive(s.setup, s.crew) && InOrder(s)
  }

  lemma FreshInv(s: State)
    requires Fresh(s)
    ensures Inv(s)
  {
  }

  lemma SubmitInv(s: State, x: Sid, m: SubmitMove)
    requires Inv(s) && CanSubmit(s, x, m)
    ensures Inv(Apply(s, Submitting(x, m)))
  {
    hide Attended, Served, Shut, Settled, Staffed, Conserved, Emptied, Handed, RanOnce, Stationed, Exclusive, InOrder,
        CanSubmit, Submitted;
    SubmitAttended(s, x, m);
    SubmitShut(s, x, m);
    SubmitStaffed(s, x, m);
    SubmitConserved(s, x, m);
    SubmitEmptied(s, x, m);
    SubmitStationed(s, x, m);
    SameTaken(s.setup, s.line, Apply(s, Submitting(x, m)).line, s.crew);
    SameOrder(s, Apply(s, Submitting(x, m)));
  }

  /** Sending does not touch what was handed out. */
  lemma SameTaken(c: Setup, n: Line, l: Line, k: Crew)
    requires Handed(c, n, k) && n.taken == l.taken
    ensures Handed(c, l, k)
  {
    assert forall h :: n.Taken(h) == l.Taken(h);
  }

  lemma SameOrder(s: State, t: State)
    requires InOrder(s) && s.setup == t.setup && s.line.taken == t.line.taken && s.crew.ran == t.crew.ran
    requires forall w :: s.crew.Of(w).job == t.crew.Of(w).job
    ensures InOrder(t)
  {
    forall g: nat ensures InOrderOn(t.setup, t.line, t.crew, g) {
      assert InOrderOn(s.setup, s.line, s.crew, g);
    }
  }

  lemma RunInv(s: State, w: Who, m: RunMove)
    requires Inv(s) && CanRun(s, w, m)
    ensures Inv(Apply(s, Running(w, m)))
  {
    hide Guarded, Staffed, Conserved, Emptied, Handed, RanOnce, Stationed, Exclusive, InOrder, CanRun, Worked;
    RunStaffed(s, w, m);
    RunConserved(s, w, m);
    RunEmptied(s, w, m);
    RunStationed(s, w, m);
    RunExclusive(s, w, m);
    RunInOrder(s, w, m);
    if m == Take {
      TakeHanded(s, w);
    } else {
      RunHanded(s, w, m);
      RunRanOnce(s, w, m);
    }
  }

  /** A step of Stop puts no stream in a runner's hands and takes none away. */
  lemma StopJobs(s: State, i: int, m: StopMove)
    requires Staffed(s) && Guarded(s.gate) && CanStop(s, i, m)
    ensures var k := Apply(s, Stopping(i, m)).crew;
            && k == s.crew.(runners := k.runners)
            && forall w :: k.Of(w).job == s.crew.Of(w).job
  {
  }

  lemma SameJobs(c: Setup, n: Line, k: Crew, l: Crew)
    requires Handed(c, n, k) && RanOnce(k) && Exclusive(c, k)
    requires l == k.(runners := l.runners) && forall w :: l.Of(w).job == k.Of(w).job
    ensures Handed(c, n, l) && RanOnce(l) && Exclusive(c, l)
  {
    assert l.owner == k.owner && l.done == k.done && l.ran == k.ran && l.locks == k.locks;
    assert forall g :: l.LockOf(g) == k.LockOf(g);
    assert forall w, g, b :: Holds(c, l, w, g, b) == Holds(c, k, w, g, b);
  }

  lemma StopInv(s: State, i: int, m: StopMove)
    requires Inv(s) && CanStop(s, i, m)
    ensures Inv(Apply(s, Stopping(i, m)))
  {
    hide Attended, Served, Shut, Settled, Staffed, Conserved, Emptied, Handed, RanOnce, Stationed, Exclusive, InOrder,
        CanStop, Halted, Relieved;
    StopAttended(s, i, m);
    StopServed(s, i, m);
    StopShut(s, i, m);
    StopStaffed(s, i, m);
    StopConserved(s, i, m);
    StopEmptied(s, i, m);
    StopStationed(s, i, m);
    StopJobs(s, i, m);
    SameJobs(s.setup, s.line, s.crew, Apply(s, Stopping(i, m)).crew);
    SameOrder(s, Apply(s, Stopping(i, m)));
  }

  /** A run: from a scheduler just started, one enabled step after another. */
  ghost predicate Run(t: seq<State>, steps: seq<Step>) {
    && |t| == |steps| + 1
    && Fresh(t[0])
    && forall i :: 0 <= i < |steps| ==> Enabled(t[i], steps[i]) && t[i + 1] == Apply(t[i], steps[i])
  }

  lemma {:induction false} RunsKeepInv(t: seq<State>, steps: seq<Step>, n: nat)
    requires Run(t, steps) && n < |t|
    ensures Inv(t[n]) && t[n].setup == t[0].setup
  {
    hide Inv, Fresh;
    if n == 0 {
      FreshInv(t[0]);
    } else {
      RunsKeepInv(t, steps, n - 1);
      match steps[n - 1]
      case Submitting(x, m) => SubmitInv(t[n - 1], x, m);
      case Running(w, m) => RunInv(t[n - 1], w, m);
      case Stopping(i, m) => StopInv(t[n - 1], i, m);
    }
  }

  // ---------------------------------------------------------------- what a run promises

  lemma {:induction false} DistinctOnce<A>(s: seq<A>, x: A)
    requires Distinct(s)
    ensures multiset(s)[x] == if x in s then 1 else 0
  {
    if s != [] {
      var r, y := s[..|s| - 1], s[|s| - 1];
      assert s == r + [y];
      DistinctOnce(r, x);
    }
  }

  /** When a Stop has returned, nothing is left in any hand or channel. */
  lemma NothingLeft(s: State, i: int, x: Sid)
    requires Inv(s) && s.gate.Of(i) == Returned && IsSent(s.gate.At(x))
    ensures x in s.crew.done
  {
    hide Conserved, Emptied, Handed, RanOnce, Stationed, Exclusive, InOrder, Shut, Attended;
    assert !s.gate.open && x in s.line.Taken(Home(s.setup, x)) by { AllTaken(s, x); }
    assert forall w :: s.crew.Of(w).job == NoJob by { hide Conserved; AllIdle(s); }
    assert x in s.crew.done by { Owner(s, x); }
  }

  lemma AllTaken(s: State, x: Sid)
    requires Conserved(s) && Emptied(s) && !s.gate.open && IsSent(s.gate.At(x))
    ensures x in s.line.Taken(Home(s.setup, x))
  {
    var h := Home(s.setup, x);
    assert x in s.line.Sent(h) && s.line.Buf(h) == [];
  }

  lemma AllIdle(s: State)
    requires Staffed(s) && Guarded(s.gate) && !s.gate.open
    ensures forall w :: s.crew.Of(w).job == NoJob
  {
    forall w ensures s.crew.Of(w).job == NoJob {
      assert w != Closer ==> s.crew.Of(w).mode == Gone;
      if w == Closer && s.gate.stopping.Some? {
        assert !Told(s.gate.Of(s.gate.stopping.value)) || s.gate.open;
      }
    }
  }

  lemma Owner(s: State, x: Sid)
    requires Handed(s.setup, s.line, s.crew) && x in s.line.Taken(Home(s.setup, x))
    requires forall w :: s.crew.Of(w).job == NoJob
    ensures x in s.crew.done
  {
  }

  /** A stream is run at most once, never when its Submit was refused, and, once any
      Stop has returned, exactly once and to the end when its Submit succeeded. */
  lemma AcceptedRunsOnce(t: seq<State>, steps: seq<Step>, n: nat, x: Sid)
    requires Run(t, steps) && n < |t|
    ensures multiset(t[n].crew.ran)[x] <= 1
    ensures t[n].gate.At(x).Refused? ==> multiset(t[n].crew.ran)[x] == 0
    ensures t[n].gate.At(x) == Accepted && (exists i :: t[n].gate.Of(i) == Returned)
            ==> multiset(t[n].crew.ran)[x] == 1 && x in t[n].crew.done
  {
    RunsKeepInv(t, steps, n);
    var s := t[n];
    OnlySentRun(s, x);
    if s.gate.At(x) == Accepted && exists i :: s.gate.Of(i) == Returned {
      var i :| s.gate.Of(i) == Returned;
      NothingLeft(s, i, x);
    }
    hide Inv, Run;
    DistinctOnce(s.crew.ran, x);
  }

  lemma OnlySentRun(s: State, x: Sid)
    requires Inv(s)
    ensures Distinct(s.crew.ran)
    ensures x in s.crew.ran ==> IsSent(s.gate.At(x))
    ensures x in s.crew.done ==> x in s.crew.ran
  {
    hide Guarded, Staffed, Emptied, Stationed, Exclusive, InOrder;
    if x in s.crew.ran {
      var h := Home(s.setup, x);
      assert x in s.line.Taken(h);
      assert x in s.line.Sent(h);
    }
  }

  /** Writes on a lane run in the order the lane accepted them: what ran is always a
      prefix of it, and all of it once a Stop has returned. */
  lemma LanesRunInOrder(t: seq<State>, steps: seq<Step>, n: nat, g: nat)
    requires Run(t, steps) && n < |t|
    ensures RanOn(t[n].setup, t[n].crew.ran, Lane(g)) <= t[n].line.Sent(Lane(g))
    ensures (exists i :: t[n].gate.Of(i) == Returned)
            ==> RanOn(t[n].setup, t[n].crew.ran, Lane(g)) == t[n].line.Sent(Lane(g))
  {
    RunsKeepInv(t, steps, n);
    LaneInOrder(t[n], g);
  }

  /** Only the channels that exist accept streams. */
  lemma OnlyChans(s: State, k: Chan)
    requires Conserved(s) && s.line.Sent(k) != []
    ensures IsChan(s.setup, k)
  {
    var x := s.line.Sent(k)[0];
    assert x in s.line.Sent(k);
    assert Home(s.setup, x) == k;
  }

  lemma LaneInOrder(s: State, g: nat)
    requires Inv(s)
    ensures RanOn(s.setup, s.crew.ran, Lane(g)) <= s.line.Sent(Lane(g))
    ensures (exists i :: s.gate.Of(i) == Returned) ==> RanOn(s.setup, s.crew.ran, Lane(g)) == s.line.Sent(Lane(g))
  {
    hide Handed, RanOnce, Stationed, Exclusive, RanOn, Staffed, Attended, Shut, Served;
    var k := Lane(g);
    assert InOrderOn(s.setup, s.line, s.crew, g);
    assert s.line.Sent(k) == s.line.Taken(k) + s.line.Buf(k);
    if exists i :: s.gate.Of(i) == Returned {
      assert !s.gate.open;
      AllIdle(s);
      if s.line.Sent(k) != [] {
        OnlyChans(s, k);
      }
    }
  }

  /** While a write runs on a graph nobody else runs on it. */
  lemma WritesRunAlone(t: seq<State>, steps: seq<Step>, n: nat, v: Who, w: Who, g: nat, write: bool)
    requires Run(t, steps) && n < |t|
    requires Holds(t[n].setup, t[n].crew, v, g, true) && Holds(t[n].setup, t[n].crew, w, g, write)
    ensures v == w
  {
    RunsKeepInv(t, steps, n);
    hide Guarded, Staffed, Conserved, Emptied, Handed, RanOnce, Stationed, InOrder, Run;
    assert t[n].crew.LockOf(g).writer == Some(v);
  }

  /** quit is never closed twice, which would panic; and Submit reports shutdown only
      when it is closed. */
  lemma QuitClosedOnce(t: seq<State>, steps: seq<Step>, n: nat, i: int, x: Sid)
    requires Run(t, steps) && n < |t|
    ensures t[n].gate.Of(i) == Inside && t[n].gate.open ==> !t[n].gate.quit
    ensures t[n].gate.At(x) == Refused(Shutdown) ==> t[n].gate.quit
  {
    RunsKeepInv(t, steps, n);
    hide Run, Staffed, Conserved, Emptied, Handed, RanOnce, Stationed, Exclusive, InOrder;
  }

  /** Not past the shutdown check, or turned away by it. */
  predicate Early(u: Submit) { u == Idle || u == Looking || u == Checking || (u.Refused? && u.why == Shutdown) }

  lemma StepIsFinal(s: State, p: Step, x: Sid)
    requires Enabled(s, p)
    ensures var g := Apply(s, p).gate;
            && (s.gate.At(x) == Accepted || s.gate.At(x).Refused? ==> g.At(x) == s.gate.At(x))
            && (s.gate.quit ==> g.quit)
            && (s.gate.quit && Early(s.gate.At(x)) ==> Early(g.At(x)))
  {
    hide Worked, CanRun, Relieved, Home;
    match p
    case Submitting(y, m) =>
      assert x != y ==> Apply(s, p).gate.At(x) == s.gate.At(x);
    case Running(_, _) =>
    case Stopping(_, _) =>
      assert Apply(s, p).gate.At(x) == s.gate.At(x);
  }

  /** Submit's answer never changes, quit stays closed, and a Submit that has not
      passed the shutdown check when quit closes is refused or still on its way to
      being refused. */
  lemma {:induction false} AnswersAreFinal(t: seq<State>, steps: seq<Step>, m: nat, n: nat, x: Sid)
    requires Run(t, steps) && m <= n < |t|
    ensures t[m].gate.At(x) == Accepted || t[m].gate.At(x).Refused? ==> t[n].gate.At(x) == t[m].gate.At(x)
    ensures t[m].gate.quit ==> t[n].gate.quit
    ensures t[m].gate.quit && Early(t[m].gate.At(x)) ==> Early(t[n].gate.At(x))
    decreases n
  {
    hide Fresh, Apply, Enabled, Early;
    if m < n {
      AnswersAreFinal(t, steps, m, n - 1, x);
      StepIsFinal(t[n - 1], steps[n - 1], x);
    }
  }

  // ---------------------------------------------------------------- Stop never sticks

  /** A step that is no new call: neither a Submit nor a Stop starting. */
  predicate Ongoing(p: Step) {
    !(p.Submitting? && p.s == LockRead) && !(p.Stopping? && p.t == Call)
  }

  ghost predicate CanGoOn(s: State) { exists p :: Ongoing(p) && Enabled(s, p) }

  lemma Member<A>(s: set<A>) returns (x: A)
    requires s != {}
    ensures x in s
  {
    x :| x in s;
  }

  /** A Submit inside the read lock can take its next step. */
  lemma ReaderMoves(s: State, x: Sid)
    requires Attended(s.gate) && x in s.gate.muReaders
    ensures CanGoOn(s)
  {
    var m := match s.gate.At(x) case Looking => LookQueue case Checking => CheckQuit case Counting => Count case _ =>
        UnlockRead;
    assert Ongoing(Submitting(x, m)) && Enabled(s, Submitting(x, m));
  }

  /** Once quit is closed, a counted Submit can move on even if its queue is full. */
  lemma CountedMoves(s: State, x: Sid)
    requires Attended(s.gate) && x in s.gate.counted && s.gate.quit
    ensures CanGoOn(s)
  {
    var m := match s.gate.At(x) case Unlocking => UnlockRead case Selecting => GiveUp(Shutdown) case _ => Settle;
    assert Ongoing(Submitting(x, m)) && Enabled(s, Submitting(x, m));
  }

  lemma HolderMoves(s: State, w: Who)
    requires s.crew.Of(w).job.Job? && s.crew.Of(w).job.stage != Acquiring
    ensures CanGoOn(s)
  {
    var m := match s.crew.Of(w).job.stage case Choosing => Choose case Holding => Commit case Releasing =>
        Release case _ => Finish;
    assert Ongoing(Running(w, m)) && Enabled(s, Running(w, m));
  }

  /** A runner with a stream can move, or the one it waits for on the graph can. */
  lemma WorkerMoves(s: State, w: Who)
    requires Exclusive(s.setup, s.crew) && s.crew.Of(w).job.Job?
    ensures CanGoOn(s)
  {
    var j := s.crew.Of(w).job;
    if j.stage != Acquiring {
      HolderMoves(s, w);
    } else {
      var g := s.setup.request(j.sid).graph;
      var l := s.crew.LockOf(g);
      if l.writer.Some? {
        assert Holds(s.setup, s.crew, l.writer.value, g, true);
        HolderMoves(s, l.writer.value);
      } else if l.readers != {} {
        var v := Member(l.readers);
        assert Holds(s.setup, s.crew, v, g, false);
        HolderMoves(s, v);
      } else {
        assert Ongoing(Running(w, Acquire)) && Enabled(s, Running(w, Acquire));
      }
    }
  }

  /** A worker that is not gone can move once quit is closed. */
  lemma IdleMoves(s: State, w: Who)
    requires Exclusive(s.setup, s.crew) && s.gate.quit && w != Closer && s.crew.Of(w).mode != Gone
    ensures CanGoOn(s)
  {
    if s.crew.Of(w).job.Job? {
      WorkerMoves(s, w);
    } else {
      var m := if s.line.Buf(ChanOf(s.gate, w)) != [] then Take else if s.crew.Of(w).mode == Looping
          then SeeQuit else Exit;
      assert Ongoing(Running(w, m)) && Enabled(s, Running(w, m));
    }
  }

  lemma LockMoves(s: State, i: int, m: StopMove)
    requires Attended(s.gate) && s.gate.muWriter.None?
    requires (m == LockWrite && s.gate.Of(i) == Entered) || (m == LockAgain && s.gate.Of(i) == Relock)
    ensures CanGoOn(s)
  {
    if s.gate.muReaders != {} {
      var x := Member(s.gate.muReaders);
      ReaderMoves(s, x);
    } else {
      assert Ongoing(Stopping(i, m)) && Enabled(s, Stopping(i, m));
    }
  }

  /** The Stop in charge, or someone it waits for, can take a step. */
  lemma ServingMoves(s: State, i: int)
    requires Attended(s.gate) && Served(s.gate) && Shut(s.gate) && Staffed(s) && Exclusive(s.setup, s.crew)
    requires Serving(s.gate.Of(i))
    ensures CanGoOn(s)
  {
    hide Attended, Exclusive, CanGoOn;
    match s.gate.Of(i)
    case Entered => NoWriter(s, i); LockMoves(s, i, LockWrite);
    case Relock => NoWriter(s, i); LockMoves(s, i, LockAgain);
    case AwaitSubmits =>
      if s.gate.counted == {} {
        StopMoves(s, i, SubmitsGone);
      } else {
        var x := Member(s.gate.counted);
        CountedMoves(s, x);
      }
    case AwaitWorkers =>
      if w :| Hired(s.setup, w) && s.crew.Of(w).mode != Gone { IdleMoves(s, w); } else { StopMoves(s, i, WorkersGone); }
    case Drain(at) => DrainMoves(s, i);
    case Inside => StopMoves(s, i, Look);
    case Closing => StopMoves(s, i, UnlockWrite);
    case Clearing => StopMoves(s, i, Clear);
    case _ => StopMoves(s, i, Leave);
  }

  lemma NoWriter(s: State, i: int)
    requires Served(s.gate) && Serving(s.gate.Of(i)) && !Writing(s.gate.Of(i))
    ensures s.gate.muWriter == None
  {
    var j := if s.gate.muWriter.Some? then s.gate.muWriter.value else i;
    assert Writing(s.gate.Of(j)) <==> s.gate.muWriter == Some(j);
    assert Serving(s.gate.Of(j)) ==> s.gate.stopping == Some(j);
  }

  lemma StopMoves(s: State, i: int, m: StopMove)
    requires CanStop(s, i, m) && m != Call
    ensures CanGoOn(s)
  {
    assert Ongoing(Stopping(i, m)) && Enabled(s, Stopping(i, m));
  }

  lemma DrainMoves(s: State, i: int)
    requires Served(s.gate) && Staffed(s) && Exclusive(s.setup, s.crew) && s.gate.Of(i).Drain?
    ensures CanGoOn(s)
  {
    assert s.gate.stopping == Some(i);
    if s.crew.Of(Closer).job.Job? {
      WorkerMoves(s, Closer);
    } else if s.line.Buf(ChanOf(s.gate, Closer)) != [] {
      assert Ongoing(Running(Closer, Take)) && Enabled(s, Running(Closer, Take));
    } else {
      StopMoves(s, i, NextQueue);
    }
  }

  /** Shutdown cannot deadlock: while any Stop has been called and not returned, some
      step already under way is enabled, without a new call to Submit or Stop. */
  lemma StopNeverSticks(t: seq<State>, steps: seq<Step>, n: nat, i: int)
    requires Run(t, steps) && n < |t|
    requires t[n].gate.Of(i) != Outside && t[n].gate.Of(i) != Returned
    ensures exists p :: Ongoing(p) && Enabled(t[n], p)
  {
    hide Run, Attended, Shut, Settled, Staffed, Conserved, Emptied, Handed, RanOnce, Stationed, Exclusive, InOrder;
    RunsKeepInv(t, steps, n);
    var s := t[n];
    if s.gate.stopping.None? {
      StopMoves(s, i, Enter);
    } else {
      ServingMoves(s, s.gate.stopping.value);
    }
    assert CanGoOn(s);
  }

  // ---------------------------------------------------------------- Stop returns

  /** The sum of a finite map's weights. */
  ghost function Total<A(!new)>(m: map<A, nat>): nat {
    if m == map[] then 0 else
      var k :| k in m;
      m[k] + Total(m - {k})
  }

  function Weight<A>(m: map<A, nat>, k: A): nat { if k in m then m[k] else 0 }

  lemma {:induction false} TotalWithout<A(!new)>(m: map<A, nat>, k: A)
    requires k in m
    ensures Total(m) == m[k] + Total(m - {k})
    decreases |m|
  {
    var j :| j in m && Total(m) == m[j] + Total(m - {j});
    if j != k {
      Fewer(m, j);
      Fewer(m, k);
      TotalWithout(m - {j}, k);
      TotalWithout(m - {k}, j);
      assert m - {j} - {k} == m - {k} - {j};
    }
  }

  lemma Fewer<A>(m: map<A, nat>, k: A)
    requires k in m
    ensures |m - {k}| < |m|
  {
    assert (m - {k}).Keys == m.Keys - {k};
  }

  /** Two maps whose weights differ at one key at most. */
  ghost predicate AlikeBut<A(!new)>(m: map<A, nat>, n: map<A, nat>, k: A) {
    forall j :: j != k ==> (j in m <==> j in n) && Weight(m, j) == Weight(n, j)
  }

  lemma TotalMoves<A(!new)>(m: map<A, nat>, n: map<A, nat>, k: A)
    requires AlikeBut(m, n, k)
    ensures Total(m) + Weight(n, k) == Total(n) + Weight(m, k)
  {
    var a, b := m - {k}, n - {k};
    assert forall j :: j in a ==> a[j] == Weight(m, j) && j in b && b[j] == Weight(n, j);
    assert a.Keys == b.Keys;
    assert a == b;
    if k in m { TotalWithout(m, k); } else { assert a == m; }
    if k in n { TotalWithout(n, k); } else { assert b == n; }
  }

  /** How many steps a Submit under way has left at most, the run it may cause included. */
  function SubmitLeft(u: Submit): nat {
    match u
    case Looking => 12
    case Checking => 11
    case Counting => 10
    case Unlocking => 9
    case Selecting => 8
    case Sent => 1
    case GaveUp(_) => 1
    case _ => 0
  }

  function JobLeft(j: Job): nat {
    match j
    case NoJob => 0
    case Job(_, stage) =>
      (match stage case Choosing => 5 case Acquiring => 4 case Holding => 3 case Releasing => 2 case Finishing => 1)
  }

  function RunnerLeft(r: Runner): nat {
    JobLeft(r.job) + match r.mode case Looping => 2 case Draining => 1 case Gone => 0
  }

  function StopLeft(t: Stop, graphs: nat): nat {
    match t
    case Waiting => graphs + 11
    case Entered => graphs + 10
    case Inside => graphs + 9
    case Closing => graphs + 8
    case AwaitSubmits => graphs + 7
    case AwaitWorkers => graphs + 6
    case Drain(at) => 4 + if at <= graphs then graphs - at else 0
    case Relock => 3
    case Clearing => 2
    case Leaving => 1
    case _ => 0
  }

  ghost function Submits(g: Gate): map<Sid, nat> { map x | x in g.submits :: SubmitLeft(g.submits[x]) }

  ghost function Stops(g: Gate, graphs: nat): map<int, nat> { map i | i in g.stops :: StopLeft(g.stops[i], graphs) }

  ghost function Waits(n: Line): map<Chan, nat> { map k | k in n.buf :: 6 * |n.buf[k]| }

  ghost function Works(k: Crew): map<Who, nat> { map w | w in k.runners :: RunnerLeft(k.runners[w]) }

  /** A bound on the steps left to everything under way. */
  ghost function Left(s: State): nat {
    Total(Submits(s.gate)) + Total(Stops(s.gate, s.setup.graphs)) + Total(Waits(s.line)) + Total(Works(s.crew))
  }

  lemma SubmitSpends(s: State, x: Sid, m: SubmitMove)
    requires CanSubmit(s, x, m) && m != LockRead
    ensures Left(Apply(s, Submitting(x, m))) < Left(s)
  {
    hide Total, Submits, Stops, Waits, Works, Submitted, SubmitLeft, StopLeft, AlikeBut;
    var t := Apply(s, Submitting(x, m));
    SubmitLess(s, x, m);
    TotalMoves(Submits(s.gate), Submits(t.gate), x);
    if m == Send {
      PushWeighs(s.line, Home(s.setup, x), x);
      TotalMoves(Waits(s.line), Waits(t.line), Home(s.setup, x));
    }
  }

  /** Sending frees the steps of the run it causes. */
  lemma SubmitLess(s: State, x: Sid, m: SubmitMove)
    requires CanSubmit(s, x, m) && m != LockRead
    ensures var g, h := s.gate, Submitted(s.gate, x, m);
            && Stops(h, s.setup.graphs) == Stops(g, s.setup.graphs)
            && Weight(Submits(h), x) + (if m == Send then 7 else 1) <= Weight(Submits(g), x)
            && AlikeBut(Submits(g), Submits(h), x)
  {
  }

  lemma PushWeighs(n: Line, k: Chan, x: Sid)
    ensures var l := n.Push(k, x);
            && Weight(Waits(l), k) == Weight(Waits(n), k) + 6
            && AlikeBut(Waits(n), Waits(l), k)
  {
  }

  lemma PopWeighs(n: Line, k: Chan)
    requires n.Buf(k) != []
    ensures var l := n.Pop(k);
            && Weight(Waits(l), k) + 6 == Weight(Waits(n), k)
            && AlikeBut(Waits(n), Waits(l), k)
  {
  }

  lemma RunSpends(s: State, w: Who, m: RunMove)
    requires CanRun(s, w, m)
    ensures Left(Apply(s, Running(w, m))) < Left(s)
  {
    hide Total, Submits, Stops, Waits, Works, Worked, RunnerLeft, AlikeBut;
    var t := Apply(s, Running(w, m));
    var x := if m == Take then s.line.Buf(ChanOf(s.gate, w))[0] else 0;
    RunLess(s, w, m, x);
    TotalMoves(Works(s.crew), Works(t.crew), w);
    if m == Take {
      PopWeighs(s.line, ChanOf(s.gate, w));
      TotalMoves(Waits(s.line), Waits(t.line), ChanOf(s.gate, w));
    }
  }

  /** Taking a stream costs the steps of running it. */
  lemma RunLess(s: State, w: Who, m: RunMove, x: Sid)
    requires CanRun(s, w, m)
    ensures var k, l := s.crew, Worked(s.setup, s.crew, w, m, x);
            && (if m == Take then Weight(Works(l), w) ==
               Weight(Works(k), w) + 5 else Weight(Works(l), w) < Weight(Works(k), w))
            && AlikeBut(Works(k), Works(l), w)
  {
    hide MayLock, ChanOf;
  }

  lemma StopSpends(s: State, i: int, m: StopMove)
    requires CanStop(s, i, m) && m != Call
    ensures Left(Apply(s, Stopping(i, m))) < Left(s)
  {
    hide Total, Halted, Relieved, Stops, Works, StopLeft, RunnerLeft, AlikeBut;
    var t := Apply(s, Stopping(i, m));
    var a, b := Stops(s.gate, s.setup.graphs), Stops(t.gate, s.setup.graphs);
    StopAlone(s, i, m);
    StopWeights(s.gate, t.gate, s.setup.graphs, i);
    TotalMoves(a, b, i);
    StopLess(s, i, m);
    CrewWeights(s, i, m);
    TotalMoves(Works(s.crew), Works(t.crew), Closer);
  }

  lemma StopWeights(g: Gate, h: Gate, graphs: nat, i: int)
    requires forall j :: j != i ==> h.Of(j) == g.Of(j) && (j in g.stops <==> j in h.stops)
    ensures Weight(Stops(g, graphs), i) == StopLeft(g.Of(i), graphs)
            && Weight(Stops(h, graphs), i) == StopLeft(h.Of(i), graphs)
    ensures AlikeBut(Stops(g, graphs), Stops(h, graphs), i)
  {
  }

  /** Waiting for the workers frees two steps: its own, and the drain's leaving. */
  lemma StopLess(s: State, i: int, m: StopMove)
    requires CanStop(s, i, m) && m != Call
    ensures var g := Halted(s.setup, s.gate, i, m);
            StopLeft(g.Of(i), s.setup.graphs) + (if m == WorkersGone then 2 else 1)
                <= StopLeft(s.gate.Of(i), s.setup.graphs)
  {
  }

  lemma CrewWeights(s: State, i: int, m: StopMove)
    requires CanStop(s, i, m)
    ensures var k, l := s.crew, Relieved(s.crew, Halted(s.setup, s.gate, i, m), i, m);
            && Weight(Works(l), Closer) <= Weight(Works(k), Closer) + (if m == WorkersGone then 1 else 0)
            && AlikeBut(Works(k), Works(l), Closer)
  {
    hide Halted;
  }

  /** With no new call, every step leaves fewer to take; and when none is left to take,
      every Stop called has returned. So Stop returns within a bounded number of steps. */
  lemma {:induction false} StopReturns(t: seq<State>, steps: seq<Step>, m: nat, n: nat)
    requires Run(t, steps) && m <= n < |t| && forall k :: m <= k < n ==> Ongoing(steps[k])
    ensures n - m + Left(t[n]) <= Left(t[m])
    ensures (forall p :: Ongoing(p) ==> !Enabled(t[n], p)) ==>
            forall i :: t[n].gate.Of(i) == Outside || t[n].gate.Of(i) == Returned
    decreases n
  {
    hide Left, Apply, CanSubmit, CanRun, CanStop, Fresh;
    if m < n {
      StopReturns(t, steps, m, n - 1);
      match steps[n - 1]
      case Submitting(x, a) => SubmitSpends(t[n - 1], x, a);
      case Running(w, a) => RunSpends(t[n - 1], w, a);
      case Stopping(i, a) => StopSpends(t[n - 1], i, a);
    }
    forall i | t[n].gate.Of(i) != Outside && t[n].gate.Of(i) != Returned
        ensures exists p :: Ongoing(p) && Enabled(t[n], p) {
      StopNeverSticks(t, steps, n, i);
    }
  }
}
