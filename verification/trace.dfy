/** Sequences of method calls on one stream object. A call that throws leaves
    the object as it was; a call that returns moves it to the state the
    method produced. This is where the lifecycle properties live: closing is
    irreversible, and nothing but `close`/`detach` ever changes the buffer. */
module Trace {
  import opened Wrappers
  import opened StringStream

  /** One public method of the class, with its arguments as PHP passes
      them (`$whence` as the raw integer). */
  datatype Call =
    | ToStringCall
    | CloseCall
    | DetachCall
    | GetSizeCall
    | TellCall
    | EofCall
    | IsSeekableCall
    | SeekCall(offset: int, whence: int)
    | RewindCall
    | IsWritableCall
    | WriteCall(data: seq<byte>)
    | IsReadableCall
    | ReadCall(length: int)
    | GetContentsCall
    | GetMetadataCall(key: Option<string>)

  predicate Closes(c: Call) {
    c.CloseCall? || c.DetachCall?
  }

  /** No call of `calls` closes the stream. */
  predicate NeverCloses(calls: seq<Call>) {
    forall i :: 0 <= i < |calls| ==> !Closes(calls[i])
  }

  /** The object's state after `c`: the new state if the method returned,
      the old one if it threw. */
  function Apply(s: State, c: Call): (r: State)
    requires Valid(s)
    ensures Valid(r)
  {
    match c
    case ToStringCall => ToString(s).state
    case CloseCall => Close(s)
    case DetachCall => Detach(s).state
    case SeekCall(offset, code) =>
      (match Seek(s, offset, WhenceOf(code)) case Ok(s') => s' case Err(_) => s)
    case RewindCall =>
      (match Rewind(s) case Ok(s') => s' case Err(_) => s)
    case ReadCall(length) =>
      (match Read(s, length) case Ok(st) => st.state case Err(_) => s)
    case GetContentsCall =>
      (match GetContents(s) case Ok(st) => st.state case Err(_) => s)
    case _ => s
  }

  /** The object's state after the calls, in order. */
  function Run(s: State, calls: seq<Call>): (r: State)
    requires Valid(s)
    ensures Valid(r)
    decreases |calls|
  {
    if calls == [] then s else Run(Apply(s, calls[0]), calls[1..])
  }

  /** A single call keeps an open buffer unless it closes the stream. */
  lemma ApplyKeepsContents(s: State, c: Call)
    requires Valid(s)
    ensures Apply(s, c).Open? <==> s.Open? && !Closes(c)
    ensures Apply(s, c).Open? ==> Apply(s, c).contents == s.contents
  {
  }

  /** Once closed, a stream stays closed whatever is called on it. */
  lemma {:induction false} ClosedIsFinal(calls: seq<Call>)
    ensures Run(Closed, calls) == Closed
    decreases |calls|
  {
    if calls != [] {
      ClosedIsFinal(calls[1..]);
    }
  }

  /** After any calls the stream is open exactly when it was open and none
      of the calls closed it, and an open stream still holds the buffer it
      was built with. */
  lemma {:induction false} RunKeepsContents(s: State, calls: seq<Call>)
    requires Valid(s)
    ensures Run(s, calls).Open? <==> s.Open? && NeverCloses(calls)
    ensures Run(s, calls).Open? ==> Run(s, calls).contents == s.contents
    decreases |calls|
  {
    if calls != [] {
      var s' := Apply(s, calls[0]);
      ApplyKeepsContents(s, calls[0]);
      RunKeepsContents(s', calls[1..]);
      NeverClosesUnfold(calls);
    }
  }

  /** A non-empty call list never closes exactly when its head does not and
      its tail never does. */
  lemma NeverClosesUnfold(calls: seq<Call>)
    requires calls != []
    ensures NeverCloses(calls) <==> !Closes(calls[0]) && NeverCloses(calls[1..])
  {
  }

  /** Whatever reads and seeks came before, `__toString` on a stream that was
      never closed returns the buffer it was built with and leaves the
      position at its length. */
  lemma ToStringAfterAnyCalls(contents: seq<byte>, calls: seq<Call>)
    requires NeverCloses(calls)
    ensures ToString(Run(New(contents), calls)).out == contents
    ensures Tell(ToString(Run(New(contents), calls)).state) == Ok(|contents|)
  {
    RunKeepsContents(New(contents), calls);
  }
}
