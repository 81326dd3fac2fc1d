/**
 The guest as it is written: the fields that the writer and the handler share, and the methods that change
 them.  Each call runs its block without interruption, so it is a stretch of the machine's run in which one
 thread takes all the steps; `trace` records those steps.
 */
module GuestProgram {
  import opened Wrappers
  import opened Guest

  /** `later` goes on from `before` with steps of the writer only. */
  predicate WriterRan(before: seq<Action>, later: seq<Action>) {
    before <= later && forall k :: |before| <= k < |later| ==> later[k].WriterStep?
  }

  lemma RunExtends(files: Files, trace: seq<Action>, a: Action)
    ensures Run(files, trace + [a]) == Take(Run(files, trace), a)
  {
    assert (trace + [a])[..|trace + [a]| - 1] == trace;
  }

  /** The machine between two calls, and with the writer inside `persist`; `booting` is the first call. */
  function Between(counter: nat, paused: bool, files: Files, published: seq<string>, responses: seq<Response>): Machine {
    Machine(true, counter, paused, Free, Waiting, Idle, files, published, responses)
  }

  function InPersist(m: Machine, booting: bool, step: Persist): Machine {
    if booting then m.(writer := Booting(step), server := Down)
    else m.(writer := Persisting(step), holder := Writer)
  }

  function AfterPersist(m: Machine, booting: bool): Machine {
    if booting then m else m.(writer := Releasing, holder := Writer)
  }

  predicate IsBetween(m: Machine) {
    m.alive && m.holder.Free? && m.writer.Waiting? && m.server.Idle?
  }

  lemma PersistMoves(files: Files, trace: seq<Action>, m: Machine, booting: bool, step: Persist, arrived: nat)
    requires IsBetween(m) && Run(files, trace) == InPersist(m, booting, step)
    ensures var next := PersistNext(step, m.counter, arrived);
            Run(files, trace + [WriterStep(arrived)])
            == if next.Some? then InPersist(Persisted(m, step, arrived), booting, next.value)
               else AfterPersist(Persisted(m, step, arrived), booting)
  {
    RunExtends(files, trace, WriterStep(arrived));
  }

  /** One more character of the text reaches the file. */
  lemma SendOne(m: Machine, text: string, sent: nat)
    requires sent < |text| && m.files.tmp == Some(text[..sent])
    ensures Persisted(m, Write(text[sent..]), 1) == m.(files := m.files.(tmp := Some(text[..sent + 1])))
    ensures PersistNext(Write(text[sent..]), m.counter, 1) == Some(Write(text[sent + 1..]))
    ensures text[..sent] + [text[sent]] == text[..sent + 1]
  {
    assert text[sent..][..1] == [text[sent]] && text[..sent] + [text[sent]] == text[..sent + 1];
    assert text[sent..][1..] == text[sent + 1..];
  }

  /** The file is complete, then synced. */
  lemma FlushMoves(files: Files, trace: seq<Action>, m: Machine, booting: bool)
    requires IsBetween(m) && m.files.tmp.Some? && Run(files, trace) == InPersist(m, booting, Write(""))
    ensures Run(files, trace + [WriterStep(0)] + [WriterStep(0)]) == InPersist(m, booting, Rename)
  {
    assert m.files.tmp.value + "" == m.files.tmp.value;
    PersistMoves(files, trace, m, booting, Write(""), 0);
    PersistMoves(files, trace + [WriterStep(0)], m, booting, Sync, 0);
  }

  lemma SendMoves(files: Files, trace: seq<Action>, m: Machine, booting: bool, text: string, sent: nat)
    requires sent < |text| && m.files.tmp == Some(text[..sent])
    requires IsBetween(m) && Run(files, trace) == InPersist(m, booting, Write(text[sent..]))
    ensures Run(files, trace + [WriterStep(1)])
            == InPersist(m.(files := m.files.(tmp := Some(text[..sent + 1]))), booting, Write(text[sent + 1..]))
    ensures text[..sent] + [text[sent]] == text[..sent + 1]
  {
    PersistMoves(files, trace, m, booting, Write(text[sent..]), 1);
    SendOne(m, text, sent);
  }

  class GuestServer {
    var counter: nat
    var paused: bool
    var tmp: Option<string>
    var json: Option<string>
    var responses: seq<Response>
    ghost var published: seq<string>
    ghost var trace: seq<Action>
    ghost const before: Files

    ghost function Snapshot(): (m: Machine)
      reads this
      ensures IsBetween(m)
    {
      Between(counter, paused, Files(tmp, json), published, responses)
    }

    /** The fields are what the machine's run has made of them. */
    ghost predicate Valid()
      reads this
    {
      Run(before, trace) == Snapshot()
    }

    /** Piece by piece into the temporary file. */
    method SendText(text: string, ghost booting: bool)
      requires text == Document(counter) && tmp == Some("")
      requires Run(before, trace) == InPersist(Snapshot(), booting, Write(text))
      modifies this`tmp, this`trace
      ensures tmp == Some(text) && WriterRan(old(trace), trace)
      ensures Run(before, trace) == InPersist(Snapshot(), booting, Write(""))
    {
      var sent := 0;
      assert text[0..] == text && text[..0] == "";
      while sent < |text|
        invariant sent <= |text| && tmp == Some(text[..sent])
        invariant WriterRan(old(trace), trace)
        invariant Run(before, trace) == InPersist(Snapshot(), booting, Write(text[sent..]))
      {
        SendMoves(before, trace, Snapshot(), booting, text, sent);
        tmp := Some(tmp.value + [text[sent]]);
        sent := sent + 1;
        trace := trace + [WriterStep(1)];
      }
      assert text[..sent] == text && text[sent..] == "";
    }

    /** Flush, sync and rename. */
    method Publish(ghost booting: bool)
      requires tmp.Some? && Run(before, trace) == InPersist(Snapshot(), booting, Write(""))
      modifies this`tmp, this`json, this`published, this`trace
      ensures json == old(tmp) && tmp == None && published == old(published) + [old(tmp).value]
      ensures WriterRan(old(trace), trace)
      ensures Run(before, trace) == AfterPersist(Snapshot(), booting)
    {
      FlushMoves(before, trace, Snapshot(), booting);
      trace := trace + [WriterStep(0)] + [WriterStep(0)];
      PersistMoves(before, trace, Snapshot(), booting, Rename, 0);
      published := published + [tmp.value];
      json := tmp;
      tmp := None;
      trace := trace + [WriterStep(0)];
    }

    /** `persist`: an empty temporary file, the text piece by piece, and the rename. */
    method Persist(ghost booting: bool)
      requires Run(before, trace) == InPersist(Snapshot(), booting, Open)
      modifies this`tmp, this`json, this`published, this`trace
      ensures json == Some(Document(counter)) && tmp == None && published == old(published) + [Document(counter)]
      ensures WriterRan(old(trace), trace)
      ensures Run(before, trace) == AfterPersist(Snapshot(), booting)
    {
      PersistMoves(before, trace, Snapshot(), booting, Open, 0);
      tmp := Some("");
      trace := trace + [WriterStep(0)];
      SendText(Document(counter), booting);
      Publish(booting);
    }

    /** Up to the start of the threads: the first persist, over whatever files are there. */
    constructor (files: Files)
      ensures Valid() && before == files
      ensures counter == 0 && !paused && json == Some(Document(0)) && responses == []
    {
      counter, paused, responses, published, trace := 0, false, [], [], [];
      tmp, json, before := files.tmp, files.json, files;
      new;
      assert Run(before, trace) == Boot(files);
      Persist(true);
    }

    /** One pass of `write_background`. */
    method WritePass()
      requires Valid()
      modifies this`counter, this`tmp, this`json, this`published, this`trace
      ensures Valid() && WriterRan(old(trace), trace)
      ensures paused ==> counter == old(counter) && json == old(json) && tmp == old(tmp) && published == old(published)
      ensures !paused ==> counter == old(counter) + 1 && json == Some(Document(counter)) && tmp == None
      ensures !paused ==> published == old(published) + [Document(counter)]
    {
      WriterMoves(before, trace);
      trace := trace + [WriterStep(0)] + [WriterStep(0)];
      if !paused {
        Increment();
      }
      RunExtends(before, trace, WriterStep(0));
      trace := trace + [WriterStep(0)];
    }

    /** The part of a pass that is skipped during a pause. */
    method Increment()
      requires Run(before, trace) == Snapshot().(holder := Writer, writer := Adding)
      modifies this`counter, this`tmp, this`json, this`published, this`trace
      ensures WriterRan(old(trace), trace)
      ensures counter == old(counter) + 1 && json == Some(Document(counter)) && tmp == None
      ensures published == old(published) + [Document(counter)]
      ensures Run(before, trace) == AfterPersist(Snapshot(), false)
    {
      RunExtends(before, trace, WriterStep(0));
      counter := counter + 1;
      trace := trace + [WriterStep(0)];
      Persist(false);
    }

    /** `do_GET`. */
    method DoGet(request: Request) returns (r: Response)
      requires Run(before, trace) == Snapshot().(server := GetWait(request))
      modifies this`responses, this`trace
      ensures Valid() && r == Response(request, counter, paused) && responses == old(responses) + [r]
    {
      GetReads(before, trace, request);
      trace := trace + [ServerStep] + [ServerStep];
      GetSends(before, trace);
      trace := trace + [ServerStep] + [ServerStep];
      r := Response(request, counter, paused);
      responses := responses + [r];
    }

    /** `do_POST`: one lock block for the flag, and another in `do_GET`. */
    method DoPost(path: string) returns (r: Response)
      requires Run(before, trace) == Snapshot().(server := PostWait(path))
      modifies this`paused, this`responses, this`trace
      ensures Valid() && paused == (path == "/quiesce")
      ensures r == Response(Post(path), counter, paused) && responses == old(responses) + [r]
    {
      PostMoves(before, trace, path);
      paused := path == "/quiesce";
      trace := trace + [ServerStep] + [ServerStep] + [ServerStep];
      r := DoGet(Post(path));
    }

    /** One request that the server takes from the socket. */
    method Handle(request: Request) returns (r: Response)
      requires Valid()
      modifies this`paused, this`responses, this`trace
      ensures Valid() && paused == Reported(request, old(paused))
      ensures r == Response(request, counter, paused) && responses == old(responses) + [r]
    {
      RunExtends(before, trace, Accept(request));
      trace := trace + [Accept(request)];
      match request
      case Get(_) => r := DoGet(request);
      case Post(path) => r := DoPost(path);
    }
  }

  /** The lock is taken and the flag is looked at. */
  lemma WriterMoves(files: Files, trace: seq<Action>)
    requires IsBetween(Run(files, trace))
    ensures var m := Run(files, trace);
            Run(files, trace + [WriterStep(0)] + [WriterStep(0)])
            == m.(holder := Writer, writer := if m.paused then Releasing else Adding)
  {
    RunExtends(files, trace, WriterStep(0));
    RunExtends(files, trace + [WriterStep(0)], WriterStep(0));
  }

  lemma GetReads(files: Files, trace: seq<Action>, request: Request)
    requires Run(files, trace).alive && Run(files, trace).holder.Free? && Run(files, trace).server == GetWait(request)
    ensures var m := Run(files, trace);
            Run(files, trace + [ServerStep] + [ServerStep])
            == m.(holder := Server, server := GetLeave(Response(request, m.counter, m.paused)))
  {
    RunExtends(files, trace, ServerStep);
    RunExtends(files, trace + [ServerStep], ServerStep);
  }

  lemma GetSends(files: Files, trace: seq<Action>)
    requires Run(files, trace).alive && Run(files, trace).server.GetLeave?
    ensures var m := Run(files, trace);
            Run(files, trace + [ServerStep] + [ServerStep])
            == m.(holder := Free, server := Idle, responses := m.responses + [m.server.response])
  {
    RunExtends(files, trace, ServerStep);
    RunExtends(files, trace + [ServerStep], ServerStep);
  }

  lemma PostMoves(files: Files, trace: seq<Action>, path: string)
    requires Run(files, trace).alive && Run(files, trace).holder.Free? && Run(files, trace).server == PostWait(path)
    ensures var m := Run(files, trace);
            Run(files, trace + [ServerStep] + [ServerStep] + [ServerStep])
            == m.(paused := path == "/quiesce", server := GetWait(Post(path)))
  {
    RunExtends(files, trace, ServerStep);
    RunExtends(files, trace + [ServerStep], ServerStep);
    RunExtends(files, trace + [ServerStep] + [ServerStep], ServerStep);
  }
}
