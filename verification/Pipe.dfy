/**
 The pipe between the receive loop of an upload and the storage provider, step by step.

 The receiver writes one chunk at a time and blocks until the provider has read all of it; the
 provider reads any part of what is offered.  Every interleaving must store the same object.
 */
module Pipe {
  import opened Wrappers
  import opened Paths
  import opened Tables
  import opened Cas

  datatype WriterState = Writing | ClosedEof | ClosedError
  datatype ReaderState = Reading | Installed(hash: string) | Aborted

  datatype State = State(
    todo: seq<Bytes>, failed: bool, offered: Option<Bytes>, writer: WriterState,
    temp: Bytes, reader: ReaderState, objects: Objects)

  function Start(s: Stream, objects: Objects): State {
    State(s.chunks, s.failed, None, Writing, [], Reading, objects)
  }

  /** The receive loop offers the next chunk. */
  ghost predicate Offer(s: State, s': State) {
    && s.writer == Writing && s.offered == None && s.todo != []
    && s' == s.(todo := s.todo[1..], offered := Some(s.todo[0]))
  }

  /** The provider reads n bytes, at least one unless the chunk is empty. */
  ghost predicate Read(s: State, s': State, n: nat) {
    && s.reader == Reading && s.offered.Some?
    && n <= |s.offered.value| && (s.offered.value != [] ==> n > 0)
    && s' == s.(temp := s.temp + s.offered.value[..n],
                offered := if n == |s.offered.value| then None else Some(s.offered.value[n..]))
  }

  /** End of stream, or a receive error that closes the pipe with that error. */
  ghost predicate Close(s: State, s': State) {
    && s.writer == Writing && s.offered == None && s.todo == []
    && s' == s.(writer := if s.failed then ClosedError else ClosedEof)
  }

  /** The provider sees end of file and installs what it read. */
  ghost predicate Install(digest: Bytes -> Bytes, s: State, s': State) {
    && s.reader == Reading && s.writer == ClosedEof && s.offered == None
    && s' == s.(reader := Installed(Encode(digest(s.temp))), objects := Stored(s.objects, digest, s.temp))
  }

  /** The provider sees the error and removes its temporary file. */
  ghost predicate Abort(s: State, s': State) {
    && s.reader == Reading && s.writer == ClosedError && s.offered == None
    && s' == s.(reader := Aborted)
  }

  ghost predicate Next(digest: Bytes -> Bytes, s: State, s': State) {
    || Offer(s, s')
    || (exists n: nat :: Read(s, s', n))
    || Close(s, s')
    || Install(digest, s, s')
    || Abort(s, s')
  }

  ghost predicate Execution(digest: Bytes -> Bytes, run: seq<State>) {
    && run != []
    && forall i | 0 <= i < |run| - 1 :: Next(digest, run[i], run[i + 1])
  }

  function Offered(s: State): Bytes { if s.offered.Some? then s.offered.value else [] }

  /** No byte is lost, doubled or reordered, and nothing is installed before end of file. */
  ghost predicate Inv(digest: Bytes -> Bytes, stream: Stream, before: Objects, s: State) {
    && s.failed == stream.failed
    && s.temp + Offered(s) + Concat(s.todo) == Concat(stream.chunks)
    && (s.writer != Writing ==> s.todo == [] && s.offered == None)
    && (s.writer == ClosedError ==> stream.failed)
    && (s.writer == ClosedEof ==> !stream.failed)
    && match s.reader
       case Reading => s.objects == before
       case Aborted => s.objects == before && s.writer == ClosedError
       case Installed(hash) =>
         && s.writer == ClosedEof
         && hash == Encode(digest(s.temp))
         && s.objects == Stored(before, digest, s.temp)
  }

  /** Bytes already read, the rest of the current chunk, and the chunks to come. */
  lemma OfferKeepsBytes(temp: Bytes, todo: seq<Bytes>)
    requires todo != []
    ensures temp + [] + Concat(todo) == temp + todo[0] + Concat(todo[1..])
  {
    ConcatCons(todo);
    assert temp + [] == temp;
  }

  lemma ReadKeepsBytes(temp: Bytes, b: Bytes, n: nat)
    requires n <= |b|
    ensures temp + b == temp + b[..n] + (if n == |b| then [] else b[n..])
  {
    assert b == b[..n] + b[n..];
  }

  lemma {:induction false} OfferKeepsInv(
    digest: Bytes -> Bytes, stream: Stream, before: Objects, s: State, s': State)
    requires Inv(digest, stream, before, s) && Offer(s, s')
    ensures Inv(digest, stream, before, s')
  {
    OfferKeepsBytes(s.temp, s.todo);
  }

  lemma {:induction false} ReadKeepsInv(
    digest: Bytes -> Bytes, stream: Stream, before: Objects, s: State, s': State, n: nat)
    requires Inv(digest, stream, before, s) && Read(s, s', n)
    ensures Inv(digest, stream, before, s')
  {
    ReadKeepsBytes(s.temp, s.offered.value, n);
    assert s'.temp + Offered(s') == s.temp + Offered(s);
  }

  lemma {:induction false} StepKeepsInv(
    digest: Bytes -> Bytes, stream: Stream, before: Objects, s: State, s': State)
    requires Inv(digest, stream, before, s) && Next(digest, s, s')
    ensures Inv(digest, stream, before, s')
  {
    if Offer(s, s') {
      OfferKeepsInv(digest, stream, before, s, s');
    } else if n: nat :| Read(s, s', n) {
      ReadKeepsInv(digest, stream, before, s, s', n);
    }
  }

  lemma {:induction false} RunKeepsInv(
    digest: Bytes -> Bytes, stream: Stream, before: Objects, run: seq<State>, i: nat)
    requires Execution(digest, run) && run[0] == Start(stream, before) && i < |run|
    ensures Inv(digest, stream, before, run[i])
  {
    if i > 0 {
      RunKeepsInv(digest, stream, before, run, i - 1);
      assert Next(digest, run[i - 1], run[i - 1 + 1]);
      StepKeepsInv(digest, stream, before, run[i - 1], run[i]);
    }
  }

  lemma {:induction false} ConcatCons(chunks: seq<Bytes>)
    requires chunks != []
    ensures Concat(chunks) == chunks[0] + Concat(chunks[1..])
    decreases |chunks|
  {
    if |chunks| > 1 {
      ConcatCons(Front(chunks));
      assert Front(chunks)[1..] == Front(chunks[1..]);
      assert Last(chunks[1..]) == Last(chunks);
    } else {
      assert Front(chunks) == [] && chunks[1..] == [];
    }
  }

  ghost predicate Done(s: State) { s.reader != Reading }

  /**
   Whatever the chunking and the interleaving, a finished upload has stored the concatenation of the
   chunks under its own hash, or, if the stream failed, nothing.
   */
  lemma EveryInterleavingStores(digest: Bytes -> Bytes, stream: Stream, before: Objects, run: seq<State>)
    requires Execution(digest, run) && run[0] == Start(stream, before)
    ensures !Done(Last(run)) ==> Last(run).objects == before
    ensures Done(Last(run)) && stream.failed ==> Last(run).reader == Aborted && Last(run).objects == before
    ensures Done(Last(run)) && !stream.failed ==>
      && Last(run).reader == Installed(Encode(digest(Concat(stream.chunks))))
      && Last(run).objects == Stored(before, digest, Concat(stream.chunks))
  {
    RunKeepsInv(digest, stream, before, run, |run| - 1);
    var s := Last(run);
    if s.writer != Writing {
      assert s.temp + [] + [] == s.temp;
    }
  }

  /** How many steps are left at most. */
  function Measure(s: State): nat {
    Weight(s.todo) + (if s.offered.Some? then 1 + |s.offered.value| else 0)
    + (if s.writer == Writing then 1 else 0) + (if s.reader == Reading then 1 else 0)
  }

  function Weight(chunks: seq<Bytes>): nat {
    if chunks == [] then 0 else 2 + |chunks[0]| + Weight(chunks[1..])
  }

  /** No interleaving gets stuck, and none goes on forever. */
  lemma UploadProgresses(digest: Bytes -> Bytes, stream: Stream, before: Objects, s: State)
    requires Inv(digest, stream, before, s)
    ensures !Done(s) ==> exists s' :: Next(digest, s, s')
    ensures forall s' | Next(digest, s, s') :: Measure(s') < Measure(s)
  {
    if !Done(s) {
      if s.offered.Some? {
        var n := |s.offered.value|;
        var s' := s.(temp := s.temp + s.offered.value[..n], offered := None);
        assert Read(s, s', n);
        assert Next(digest, s, s');
      } else if s.writer == ClosedEof {
        var hash := Encode(digest(s.temp));
        assert Next(digest, s, s.(reader := Installed(hash), objects := Stored(s.objects, digest, s.temp)));
      } else if s.writer == ClosedError {
        assert Next(digest, s, s.(reader := Aborted));
      } else if s.todo != [] {
        assert Next(digest, s, s.(todo := s.todo[1..], offered := Some(s.todo[0])));
      } else {
        assert Next(digest, s, s.(writer := if s.failed then ClosedError else ClosedEof));
      }
    }
  }
}
