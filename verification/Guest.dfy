/**
 The guest that counts in the background, keeps its counter in a file and can be told to pause: a writer
 thread and a serial server share the counter, the pause flag and one lock.  The machine takes one small step
 of one of them at a time, in any order, and may be killed before any step.
 */
module Guest {
  import opened Decimal
  import opened Sequences
  import opened Wrappers

  // ---------------------------------------------------------------- the file's text

  const HEAD := "{\"counter\": "
  const TAIL := "}"

  /** `json.dump({"counter": n})`. */
  function Document(n: nat): string {
    HEAD + (Numeral(n) + TAIL)
  }

  /** A reader that accepts only a whole document. */
  function ReadDocument(s: string): Option<nat> {
    if !(HEAD <= s) then None
    else
      var rest := s[|HEAD|..];
      var k := DigitRun(rest);
      if k == 0 || rest[k..] != TAIL then None else Some(Value(rest[..k]))
  }

  lemma DocumentReadsBack(n: nat)
    ensures ReadDocument(Document(n)) == Some(n)
  {
    var digits := Numeral(n);
    assert Document(n)[|HEAD|..] == digits + TAIL;
    DigitRunOfPrefix(digits, TAIL);
    assert (digits + TAIL)[..|digits|] == digits && (digits + TAIL)[|digits|..] == TAIL;
    ValueOfNumeral(n);
  }

  /** A document that was cut off is not taken for another one. */
  lemma TornIsUnreadable(n: nat, k: nat)
    requires k < |Document(n)|
    ensures ReadDocument(Document(n)[..k]) == None
  {
    var cut := Document(n)[..k];
    if k >= |HEAD| {
      var digits, m := Numeral(n), k - |HEAD|;
      assert cut[|HEAD|..] == digits[..m];
      assert digits[..m] + "" == digits[..m];
      DigitRunOfPrefix(digits[..m], "");
    }
  }

  // ---------------------------------------------------------------- the machine

  datatype Files = Files(tmp: Option<string>, json: Option<string>)

  /** Where `persist` is; `pending` has been dumped but is not in the file yet. */
  datatype Persist = Open | Write(pending: string) | Sync | Rename

  datatype WriterPlace =
    | Booting(step: Persist)
    | Waiting
    | Checking
    | Adding
    | Persisting(step: Persist)
    | Releasing

  datatype Request = Get(path: string) | Post(path: string)

  datatype Response = Response(request: Request, counter: nat, quiescent: bool)

  datatype ServerPlace =
    | Down
    | Idle
    | PostWait(path: string)
    | PostSet(path: string)
    | PostLeave(path: string)
    | GetWait(request: Request)
    | GetRead(request: Request)
    | GetLeave(response: Response)
    | Send(response: Response)

  datatype Holder = Free | Writer | Server

  /** `published` lists the texts that were renamed into place, `responses` what was sent, in order. */
  datatype Machine = Machine(
    alive: bool,
    counter: nat,
    paused: bool,
    holder: Holder,
    writer: WriterPlace,
    server: ServerPlace,
    files: Files,
    published: seq<string>,
    responses: seq<Response>)

  /** `arrived` is how much of the pending text reaches the file, if that is what the writer is doing. */
  datatype Action = WriterStep(arrived: nat) | ServerStep | Accept(request: Request) | Crash

  function Boot(files: Files): Machine {
    Machine(true, 0, false, Free, Booting(Open), Down, files, [], [])
  }

  function PersistFiles(files: Files, step: Persist, arrived: nat): Files {
    match step
    case Open => files.(tmp := Some(""))
    case Write(pending) =>
      if files.tmp.Some? then files.(tmp := Some(files.tmp.value + pending[..Least(arrived, |pending|)])) else files
    case Sync => files
    case Rename => Files(None, files.tmp)
  }

  /** The next step of `persist`; `None` after the last one. */
  function PersistNext(step: Persist, counter: nat, arrived: nat): Option<Persist> {
    match step
    case Open => Some(Write(Document(counter)))
    case Write(pending) => if pending == "" then Some(Sync) else Some(Write(pending[Least(arrived, |pending|)..]))
    case Sync => Some(Rename)
    case Rename => None
  }

  function Persisted(m: Machine, step: Persist, arrived: nat): Machine {
    m.(files := PersistFiles(m.files, step, arrived),
       published := if step.Rename? && m.files.tmp.Some? then m.published + [m.files.tmp.value] else m.published)
  }

  function TakeWriter(m: Machine, arrived: nat): Machine {
    match m.writer
    case Booting(step) =>
      var next := Persisted(m, step, arrived);
      (match PersistNext(step, m.counter, arrived)
       case Some(s) => next.(writer := Booting(s))
       case None => next.(writer := Waiting, server := Idle))
    case Waiting => if m.holder.Free? then m.(holder := Writer, writer := Checking) else m
    case Checking => m.(writer := if m.paused then Releasing else Adding)
    case Adding => m.(counter := m.counter + 1, writer := Persisting(Open))
    case Persisting(step) =>
      var next := Persisted(m, step, arrived);
      (match PersistNext(step, m.counter, arrived)
       case Some(s) => next.(writer := Persisting(s))
       case None => next.(writer := Releasing))
    case Releasing => m.(holder := Free, writer := Waiting)
  }

  function TakeServer(m: Machine): Machine {
    match m.server
    case Down => m
    case Idle => m
    case PostWait(path) => if m.holder.Free? then m.(holder := Server, server := PostSet(path)) else m
    case PostSet(path) => m.(paused := path == "/quiesce", server := PostLeave(path))
    case PostLeave(path) => m.(holder := Free, server := GetWait(Post(path)))
    case GetWait(request) => if m.holder.Free? then m.(holder := Server, server := GetRead(request)) else m
    case GetRead(request) => m.(server := GetLeave(Response(request, m.counter, m.paused)))
    case GetLeave(response) => m.(holder := Free, server := Send(response))
    case Send(response) => m.(responses := m.responses + [response], server := Idle)
  }

  function Take(m: Machine, a: Action): Machine {
    if !m.alive then m
    else
      match a
      case Crash => m.(alive := false)
      case Accept(request) =>
        if !m.server.Idle? then m
        else m.(server := if request.Post? then PostWait(request.path) else GetWait(request))
      case WriterStep(arrived) => TakeWriter(m, arrived)
      case ServerStep => TakeServer(m)
  }

  /** Every machine that some order of steps leads to; `files` is what was there before. */
  function Run(files: Files, actions: seq<Action>): Machine {
    if actions == [] then Boot(files)
    else Take(Run(files, actions[..|actions| - 1]), actions[|actions| - 1])
  }

  // ---------------------------------------------------------------- what every step keeps

  /** The value in `counter.json`, once there is one. */
  function Durable(m: Machine): nat {
    if m.writer.Persisting? && m.counter >= 1 then m.counter - 1 else m.counter
  }

  function Texts(n: nat): (t: seq<string>)
    ensures |t| == n && forall k :: 0 <= k < n ==> t[k] == Document(k)
  {
    if n == 0 then [] else Texts(n - 1) + [Document(n - 1)]
  }

  predicate PersistOk(files: Files, step: Persist, counter: nat) {
    match step
    case Open => true
    case Write(pending) => files.tmp.Some? && files.tmp.value + pending == Document(counter)
    case Sync => files.tmp == Some(Document(counter))
    case Rename => files.tmp == Some(Document(counter))
  }

  predicate LockOk(m: Machine) {
    && (m.holder.Writer? <==> m.writer.Checking? || m.writer.Adding? || m.writer.Persisting? || m.writer.Releasing?)
    && (m.holder.Server? <==> m.server.PostSet? || m.server.PostLeave? || m.server.GetRead? || m.server.GetLeave?)
    && (m.server.Down? <==> m.writer.Booting?)
  }

  predicate FilesOk(m: Machine) {
    if m.writer.Booting? then m.counter == 0 && m.published == [] && PersistOk(m.files, m.writer.step, 0)
    else
      && m.published == Texts(Durable(m) + 1)
      && m.files.json == Some(Document(Durable(m)))
      && (m.writer.Persisting? ==> m.counter >= 1 && PersistOk(m.files, m.writer.step, m.counter))
  }

  predicate PauseOk(m: Machine) {
    m.writer.Adding? || m.writer.Persisting? ==> !m.paused
  }

  /** What the last response said about the writer. */
  function LastQuiescent(responses: seq<Response>): bool {
    responses != [] && responses[|responses| - 1].quiescent
  }

  /** A POST decides; a GET repeats what was decided last. */
  function Reported(request: Request, before: bool): bool {
    if request.Post? then request.path == "/quiesce" else before
  }

  predicate ServerOk(m: Machine) {
    var before := LastQuiescent(m.responses);
    match m.server
    case Down => m.responses == [] && !m.paused
    case Idle => m.paused == before
    case PostWait(_) => m.paused == before
    case PostSet(_) => m.paused == before
    case PostLeave(path) => m.paused == (path == "/quiesce")
    case GetWait(request) => m.paused == Reported(request, before)
    case GetRead(request) => m.paused == Reported(request, before)
    case GetLeave(response) => Fits(m, response, before)
    case Send(response) => Fits(m, response, before)
  }

  /** A response that can be sent now. */
  predicate Fits(m: Machine, response: Response, before: bool) {
    && response.quiescent == m.paused == Reported(response.request, before)
    && response.counter <= Durable(m)
    && (m.responses != [] ==> m.responses[|m.responses| - 1].counter <= response.counter)
    && (m.paused ==> response.counter == m.counter)
  }

  /** Each response says what the requests up to it have decided. */
  predicate Truthful(responses: seq<Response>) {
    forall k :: 0 <= k < |responses| ==> responses[k].quiescent == Reported(responses[k].request, LastQuiescent(responses[..k]))
  }

  /** The counter never goes back, and stands still between two responses that both report a pause. */
  predicate InOrder(a: Response, b: Response) {
    a.counter <= b.counter && (a.quiescent && b.quiescent ==> a.counter == b.counter)
  }

  predicate Ordered(responses: seq<Response>) {
    forall k :: 0 < k < |responses| ==> InOrder(responses[k - 1], responses[k])
  }

  predicate ResponsesOk(responses: seq<Response>) {
    Truthful(responses) && Ordered(responses)
  }

  predicate LastOk(m: Machine) {
    m.responses != [] ==>
      var last := m.responses[|m.responses| - 1];
      last.counter <= Durable(m) && (last.quiescent && m.paused ==> last.counter == m.counter)
  }

  predicate Inv(m: Machine) {
    LockOk(m) && FilesOk(m) && PauseOk(m) && ServerOk(m) && ResponsesOk(m.responses) && LastOk(m)
  }

  lemma PersistStepOk(files: Files, step: Persist, counter: nat, arrived: nat)
    requires PersistOk(files, step, counter)
    ensures PersistNext(step, counter, arrived).Some? ==>
              PersistOk(PersistFiles(files, step, arrived), PersistNext(step, counter, arrived).value, counter)
    ensures !step.Rename? ==> PersistFiles(files, step, arrived).json == files.json
    ensures step.Rename? <==> PersistNext(step, counter, arrived).None?
  {
    if step.Write? {
      var p, n := step.pending, Least(arrived, |step.pending|);
      assert files.tmp.value + p[..n] + p[n..] == files.tmp.value + p;
      if p == "" {
        assert files.tmp.value + p[..n] == files.tmp.value + p == files.tmp.value;
      }
    }
  }

  lemma BootKeepsFiles(m: Machine, arrived: nat)
    requires m.writer.Booting? && FilesOk(m)
    ensures FilesOk(TakeWriter(m, arrived))
  {
    PersistStepOk(m.files, m.writer.step, 0, arrived);
    assert Texts(0) == [] && Texts(1) == Texts(0) + [Document(0)];
  }

  lemma PersistKeepsFiles(m: Machine, arrived: nat)
    requires m.writer.Persisting? && FilesOk(m)
    ensures FilesOk(TakeWriter(m, arrived)) && Durable(m) <= Durable(TakeWriter(m, arrived))
  {
    PersistStepOk(m.files, m.writer.step, m.counter, arrived);
    assert Texts(m.counter + 1) == Texts(m.counter) + [Document(m.counter)];
  }

  lemma QuietWriter(m: Machine, arrived: nat)
    requires !m.writer.Booting? && !m.writer.Persisting?
    ensures var n := TakeWriter(m, arrived);
            && !n.writer.Booting? && n.files == m.files && n.published == m.published && Durable(n) == Durable(m)
            && (n.writer.Persisting? ==> n.writer.step.Open? && n.counter >= 1)
  {
  }

  lemma SameFilesOk(m: Machine, n: Machine)
    requires FilesOk(m) && !m.writer.Booting? && !n.writer.Booting?
    requires n.files == m.files && n.published == m.published && Durable(n) == Durable(m)
    requires n.writer.Persisting? ==> n.writer.step.Open? && n.counter >= 1
    ensures FilesOk(n)
  {
  }

  lemma WriterKeepsFiles(m: Machine, arrived: nat)
    requires FilesOk(m)
    ensures FilesOk(TakeWriter(m, arrived))
    ensures m.writer.Booting? || Durable(m) <= Durable(TakeWriter(m, arrived))
  {
    if m.writer.Booting? {
      BootKeepsFiles(m, arrived);
    } else if m.writer.Persisting? {
      PersistKeepsFiles(m, arrived);
    } else {
      QuietWriter(m, arrived);
      SameFilesOk(m, TakeWriter(m, arrived));
    }
  }

  lemma WriterKeepsLock(m: Machine, arrived: nat)
    requires LockOk(m) && PauseOk(m) && FilesOk(m)
    ensures LockOk(TakeWriter(m, arrived)) && PauseOk(TakeWriter(m, arrived))
    ensures m.paused ==> Durable(TakeWriter(m, arrived)) == Durable(m)
  {
  }

  lemma WriterLeavesServer(m: Machine, arrived: nat)
    ensures var n := TakeWriter(m, arrived);
            && n.paused == m.paused && n.responses == m.responses
            && (if m.writer.Booting? && !n.writer.Booting? then n.server.Idle? else n.server == m.server)
            && (m.writer.Booting? ==> n.counter == m.counter)
  {
  }

  lemma PausedIsDurable(m: Machine)
    requires PauseOk(m) && m.paused
    ensures Durable(m) == m.counter
  {
  }

  /** Responses that were right stay right while the file only moves on. */
  lemma ServerOkMonotone(m: Machine, n: Machine)
    requires ServerOk(m) && LastOk(m)
    requires n.paused == m.paused && n.responses == m.responses && n.server == m.server
    requires Durable(m) <= Durable(n) && (m.paused ==> n.counter == m.counter)
    ensures ServerOk(n) && LastOk(n)
  {
  }

  lemma WriterKeepsInv(m: Machine, arrived: nat)
    requires Inv(m)
    ensures Inv(TakeWriter(m, arrived))
  {
    var n := TakeWriter(m, arrived);
    WriterKeepsFiles(m, arrived);
    WriterKeepsLock(m, arrived);
    WriterLeavesServer(m, arrived);
    if m.paused {
      PausedIsDurable(m);
      PausedIsDurable(n);
    }
    if m.writer.Booting? {
      BootingServes(m, n);
    } else {
      ServerOkMonotone(m, n);
    }
  }

  lemma BootingServes(m: Machine, n: Machine)
    requires LockOk(m) && LockOk(n) && ServerOk(m) && m.writer.Booting?
    requires n.paused == m.paused && n.responses == m.responses
    requires if n.writer.Booting? then n.server == m.server else n.server.Idle?
    ensures ServerOk(n) && LastOk(n)
  {
  }

  lemma TruthfulAppend(responses: seq<Response>, r: Response)
    requires Truthful(responses) && r.quiescent == Reported(r.request, LastQuiescent(responses))
    ensures Truthful(responses + [r])
  {
    var all := responses + [r];
    assert all[..|responses|] == responses;
    forall k | 0 <= k < |responses| ensures all[..k] == responses[..k] {
    }
  }

  lemma OrderedAppend(responses: seq<Response>, r: Response)
    requires Ordered(responses) && (responses != [] ==> InOrder(responses[|responses| - 1], r))
    ensures Ordered(responses + [r])
  {
  }

  lemma ServerLeavesWriter(m: Machine)
    ensures var n := TakeServer(m);
            n.writer == m.writer && n.counter == m.counter && n.files == m.files && n.published == m.published
  {
  }

  lemma ServerKeepsLock(m: Machine)
    requires LockOk(m) && PauseOk(m)
    ensures LockOk(TakeServer(m)) && PauseOk(TakeServer(m))
  {
  }

  lemma SameWriterSameFiles(m: Machine, n: Machine)
    requires FilesOk(m)
    requires n.writer == m.writer && n.counter == m.counter && n.files == m.files && n.published == m.published
    ensures FilesOk(n) && Durable(n) == Durable(m)
  {
  }

  lemma ServerKeepsServer(m: Machine)
    requires ServerOk(m) && LastOk(m) && PauseOk(m) && LockOk(m)
    ensures ServerOk(TakeServer(m)) && LastOk(TakeServer(m))
  {
    match m.server {
      case GetRead(request) =>
        assert !m.writer.Persisting?;
      case _ =>
    }
  }

  lemma ServerKeepsInv(m: Machine)
    requires Inv(m)
    ensures Inv(TakeServer(m))
  {
    ServerLeavesWriter(m);
    SameWriterSameFiles(m, TakeServer(m));
    ServerKeepsLock(m);
    ServerKeepsServer(m);
    if m.server.Send? {
      SendKeepsResponses(m);
    }
  }

  lemma SendKeepsResponses(m: Machine)
    requires m.server.Send? && ServerOk(m) && LastOk(m) && ResponsesOk(m.responses)
    ensures ResponsesOk(TakeServer(m).responses)
  {
    TruthfulAppend(m.responses, m.server.response);
    OrderedAppend(m.responses, m.server.response);
  }

  lemma AcceptKeepsInv(m: Machine, request: Request)
    requires Inv(m) && m.alive
    ensures Inv(Take(m, Accept(request)))
  {
  }

  lemma TakeKeepsInv(m: Machine, a: Action)
    requires Inv(m)
    ensures Inv(Take(m, a))
  {
    if m.alive {
      match a
      case WriterStep(arrived) => WriterKeepsInv(m, arrived);
      case ServerStep => ServerKeepsInv(m);
      case Accept(request) => AcceptKeepsInv(m, request);
      case Crash =>
    }
  }

  lemma {:induction false} RunKeepsInv(files: Files, actions: seq<Action>)
    ensures Inv(Run(files, actions))
  {
    if actions != [] {
      RunKeepsInv(files, actions[..|actions| - 1]);
      TakeKeepsInv(Run(files, actions[..|actions| - 1]), actions[|actions| - 1]);
    }
  }

  // ---------------------------------------------------------------- in every order, with a kill at any step

  /** The first persist is over. */
  predicate Booted(m: Machine) {
    !m.writer.Booting?
  }

  /**
   From the first persist on, and wherever the machine is killed: `counter.json` is a whole document; it
   holds the counter, or while the lock is held by the writer possibly the value before it; and it is never
   below a value that was sent in a response.
   */
  lemma FileIsDurable(files: Files, actions: seq<Action>)
    requires Booted(Run(files, actions))
    ensures var m := Run(files, actions);
            && m.files.json.Some?
            && (ReadDocument(m.files.json.value) == Some(m.counter)
                || (m.holder.Writer? && m.counter >= 1 && ReadDocument(m.files.json.value) == Some(m.counter - 1)))
            && forall k :: 0 <= k < |m.responses| ==> m.responses[k].counter <= ReadDocument(m.files.json.value).value
  {
    RunKeepsInv(files, actions);
    var m := Run(files, actions);
    DocumentReadsBack(Durable(m));
    forall k | 0 <= k < |m.responses| ensures m.responses[k].counter <= Durable(m) {
      CountersRise(m.responses, k);
    }
  }

  lemma {:induction false} CountersRise(responses: seq<Response>, k: nat)
    requires Ordered(responses) && k < |responses|
    ensures responses[k].counter <= responses[|responses| - 1].counter
    decreases |responses| - k
  {
    if k + 1 < |responses| {
      assert InOrder(responses[k + 1 - 1], responses[k + 1]);
      CountersRise(responses, k + 1);
    }
  }

  /** The values renamed into place are 0, 1, 2, ... with none left out, and the file holds the last of them. */
  lemma PublishedWithoutGap(files: Files, actions: seq<Action>)
    ensures var p := Run(files, actions).published;
            && (forall k :: 0 <= k < |p| ==> ReadDocument(p[k]) == Some(k))
            && (p != [] ==> Run(files, actions).files.json == Some(p[|p| - 1]))
            && (p == [] <==> !Booted(Run(files, actions)))
  {
    RunKeepsInv(files, actions);
    var p := Run(files, actions).published;
    forall k | 0 <= k < |p| ensures ReadDocument(p[k]) == Some(k) {
      DocumentReadsBack(k);
    }
  }

  /** Every response tells the truth about the pause, and two that report it agree on the counter. */
  lemma ResponsesAreTrue(files: Files, actions: seq<Action>)
    ensures var r := Run(files, actions).responses;
            && Truthful(r)
            && (forall i, k :: 0 <= i < k < |r| ==> r[i].counter <= r[k].counter)
            && (forall i, k :: 0 <= i < k < |r| && (forall q :: i <= q <= k ==> r[q].quiescent) ==> r[i].counter == r[k].counter)
  {
    RunKeepsInv(files, actions);
    var r := Run(files, actions).responses;
    forall i, k | 0 <= i < k < |r|
      ensures r[i].counter <= r[k].counter
      ensures (forall q :: i <= q <= k ==> r[q].quiescent) ==> r[i].counter == r[k].counter
    {
      OrderedBetween(r, i, k);
    }
  }

  lemma {:induction false} OrderedBetween(r: seq<Response>, i: nat, k: nat)
    requires Ordered(r) && i <= k < |r|
    ensures r[i].counter <= r[k].counter
    ensures (forall q :: i <= q <= k ==> r[q].quiescent) ==> r[i].counter == r[k].counter
    decreases k - i
  {
    if i < k {
      assert InOrder(r[k - 1], r[k]);
      OrderedBetween(r, i, k - 1);
    }
  }

  // ---------------------------------------------------------------- a pause holds

  predicate Unpauses(request: Request) {
    request.Post? && request.path != "/quiesce"
  }

  /** The lock block of `/quiesce` is over, and no other POST has been accepted since. */
  predicate Quiesced(m: Machine) {
    && m.paused
    && !m.writer.Booting? && !m.server.Down?
    && (m.server.PostWait? ==> m.server.path == "/quiesce")
    && (m.server.PostSet? ==> m.server.path == "/quiesce")
  }

  predicate StaysPaused(actions: seq<Action>) {
    forall k :: 0 <= k < |actions| && actions[k].Accept? ==> !Unpauses(actions[k].request)
  }

  /** What a step cannot change during a pause. */
  predicate Frozen(m: Machine, n: Machine) {
    n.counter == m.counter && n.files == m.files && n.published == m.published && m.responses <= n.responses
  }

  lemma QuiescedStep(m: Machine, a: Action)
    requires Inv(m) && Quiesced(m) && (a.Accept? ==> !Unpauses(a.request))
    ensures Quiesced(Take(m, a)) && Frozen(m, Take(m, a))
  {
  }

  lemma {:induction false} QuiescedRun(files: Files, actions: seq<Action>, more: seq<Action>)
    requires Quiesced(Run(files, actions)) && StaysPaused(more)
    ensures Quiesced(Run(files, actions + more)) && Frozen(Run(files, actions), Run(files, actions + more))
  {
    if more == [] {
      assert actions + more == actions;
    } else {
      var front, last := more[..|more| - 1], more[|more| - 1];
      assert (actions + more)[..|actions + more| - 1] == actions + front;
      QuiescedRun(files, actions, front);
      RunKeepsInv(files, actions + front);
      QuiescedStep(Run(files, actions + front), last);
    }
  }

  /**
   Once a `/quiesce` POST has set the pause in its lock block, neither the counter nor any file changes until
   a POST to another path is accepted, however the threads are scheduled.  Its own response, and every other
   one sent meanwhile, reports the pause and the counter that is in the file.
   */
  lemma QuiesceFreezes(files: Files, actions: seq<Action>, more: seq<Action>)
    requires Run(files, actions).server == PostLeave("/quiesce") && StaysPaused(more)
    ensures var m, n := Run(files, actions), Run(files, actions + more);
            && Frozen(m, n) && n.paused
            && n.files.json.Some? && ReadDocument(n.files.json.value) == Some(m.counter)
            && AllReport(n.responses, |m.responses|, m.counter)
  {
    RunKeepsInv(files, actions);
    QuiescedRun(files, actions, more);
    RunKeepsInv(files, actions + more);
    DocumentReadsBack(Durable(Run(files, actions)));
    QuiescedResponses(files, actions, more);
  }

  /** What is sent in a pause reports the pause and this counter. */
  predicate AllReport(responses: seq<Response>, from: nat, counter: nat) {
    forall k :: from <= k < |responses| ==> responses[k].quiescent && responses[k].counter == counter
  }

  lemma QuiescedSends(m: Machine, a: Action, from: nat)
    requires Inv(m) && Quiesced(m) && from <= |m.responses| && AllReport(m.responses, from, m.counter)
    requires a.Accept? ==> !Unpauses(a.request)
    ensures AllReport(Take(m, a).responses, from, m.counter)
  {
  }

  lemma {:induction false} QuiescedResponses(files: Files, actions: seq<Action>, more: seq<Action>)
    requires Quiesced(Run(files, actions)) && StaysPaused(more)
    ensures var m, n := Run(files, actions), Run(files, actions + more);
            |m.responses| <= |n.responses| && AllReport(n.responses, |m.responses|, m.counter)
  {
    if more == [] {
      assert actions + more == actions;
    } else {
      var front, last := more[..|more| - 1], more[|more| - 1];
      assert (actions + more)[..|actions + more| - 1] == actions + front;
      QuiescedResponses(files, actions, front);
      QuiescedRun(files, actions, front);
      RunKeepsInv(files, actions + front);
      QuiescedSends(Run(files, actions + front), last, |Run(files, actions).responses|);
      QuiescedRun(files, actions, more);
    }
  }
}
