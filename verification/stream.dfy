/** A read-only, seekable stream over a fixed byte string, following the
    stream interface of PSR-7 (section 1.3 "Streams" of the PHP-FIG HTTP
    message interfaces).

    The PHP object keeps two fields: `contents`, a string or `null` once the
    stream is closed, and an integer `position`. Here the two are folded into
    one immutable tagged state, and every method becomes a pure function from
    the state before the call to the state after it (plus the method's return
    value), or to the exception the method throws. A thrown exception never
    carries a state: the caller keeps the state it had, which is how the
    object behaves, since every failing method throws before it assigns a
    field. */
module StringStream {
  import opened Wrappers

  newtype byte = x: int | 0 <= x < 256

  /** The `$whence` argument of `seek`: PHP's SEEK_SET, SEEK_CUR and
      SEEK_END, or any other integer a caller passes. */
  datatype Whence = SeekSet | SeekCur | SeekEnd | Other(code: int)

  /** The exceptions the class throws, one kind per failure condition. */
  datatype Error =
    | StreamClosed     // tell, or seek (and so rewind, read, getContents) after close
    | InvalidWhence    // seek with an unrecognised `$whence`
    | SeekBeforeStart  // the seek target is negative
    | NegativeLength   // read with a negative length
    | NotWritable      // every write

  /** The PHP values `getMetadata` and `detach` hand back. */
  datatype Value = Null | Bool(b: bool) | Int(i: int) | Str(s: string)

  /** `getMetadata()` returns the whole array, `getMetadata($key)` one entry. */
  datatype Metadata = All(entries: map<string, Value>) | Entry(value: Value)

  /** `Closed` is the object whose `contents` is `null`. */
  datatype State = Open(contents: seq<byte>, pos: nat) | Closed

  /** The state after a call together with what the call returned. */
  datatype Step<T> = Step(state: State, out: T)

  /** The representation invariant: an open stream's cursor lies within its
      contents. */
  predicate Valid(s: State) {
    s.Open? ==> s.pos <= |s.contents|
  }

  function Min(a: int, b: int): int {
    if a <= b then a else b
  }

  /** `strlen($this->contents)`; PHP's `strlen(null)` is 0. */
  function Length(s: State): nat {
    if s.Open? then |s.contents| else 0
  }

  /** `$this->position`; `close` resets it to 0 and nothing moves it after. */
  function Position(s: State): nat {
    if s.Open? then s.pos else 0
  }

  /** The PHP integer codes of the seek origins. */
  const SEEK_SET_CODE: int := 0
  const SEEK_CUR_CODE: int := 1
  const SEEK_END_CODE: int := 2

  /** Reads a raw `$whence` integer as a seek origin. */
  function WhenceOf(code: int): (w: Whence)
    ensures w == SeekSet <==> code == SEEK_SET_CODE
    ensures w == SeekCur <==> code == SEEK_CUR_CODE
    ensures w == SeekEnd <==> code == SEEK_END_CODE
    ensures w.Other? ==> w.code == code
  {
    if code == SEEK_SET_CODE then SeekSet
    else if code == SEEK_CUR_CODE then SeekCur
    else if code == SEEK_END_CODE then SeekEnd
    else Other(code)
  }

  /** PHP's `substr($str, $start, $length)` for a start within the string and
      a non-negative length: at most `length` bytes from `start` on, and the
      empty string when `start` is the end. */
  function Substr(str: seq<byte>, start: nat, length: nat): (r: seq<byte>)
    requires start <= |str|
    ensures |r| == Min(length, |str| - start)
    ensures forall i :: 0 <= i < |r| ==> r[i] == str[start + i]
  {
    str[start..Min(start + length, |str|)]
  }

  /** `__construct($contents)`: an open stream at position 0. */
  function New(contents: seq<byte>): (s: State)
    ensures Valid(s) && IsReadable(s) && IsSeekable(s)
    ensures Eof(s) <==> |contents| == 0
    ensures Size(s) == Some(|contents|)
    ensures Tell(s) == Ok(0)
    ensures ToString(s).out == contents
  {
    Open(contents, 0)
  }

  /** `__toString()`: the whole buffer whatever the position, leaving the
      stream at its end; the empty string once closed. */
  function ToString(s: State): (r: Step<seq<byte>>)
    ensures Valid(r.state) && Eof(r.state)
    ensures Size(r.state) == Size(s)
    ensures s.Open? ==> r.state.Open? && r.state.contents == s.contents && r.out == s.contents
    ensures s.Closed? ==> r.state.Closed? && r.out == []
  {
    match s
    case Open(contents, _) => Step(Open(contents, |contents|), contents)
    case Closed => Step(Closed, [])
  }

  /** `close()`: drops the contents; closing again changes nothing. */
  function Close(s: State): (r: State)
    ensures Valid(r) && Eof(r)
    ensures !IsReadable(r) && !IsSeekable(r) && !IsWritable(r)
    ensures Size(r) == None && Tell(r) == Err(StreamClosed)
    ensures s.Closed? ==> r == s
  {
    Closed
  }

  /** `detach()`: closes the stream and returns null, as the stream holds no
      underlying resource. */
  function Detach(s: State): (r: Step<Value>)
    ensures r.state == Close(s) && r.out == Null
  {
    Step(Close(s), Null)
  }

  /** `getSize()`: the byte length while open, null once closed. */
  function Size(s: State): (r: Option<nat>)
    ensures r.Some? <==> Tell(s).Ok?
    ensures r.Some? ==> r.value == Length(s)
    ensures r.Some? && Valid(s) ==> Position(s) <= r.value
  {
    if s.Closed? then None else Some(|s.contents|)
  }

  /** `tell()`: the position, or an exception once closed. */
  function Tell(s: State): (r: Result<nat, Error>)
    ensures r.Err? <==> s.Closed?
    ensures r.Err? ==> r.error == StreamClosed
    ensures r.Ok? ==> r.value == Position(s)
  {
    if s.Closed? then Err(StreamClosed) else Ok(s.pos)
  }

  /** `eof()`: the position equals the length. A closed stream has position
      0 and `strlen(null) == 0`, so it is always at its end. */
  function Eof(s: State): (r: bool)
    ensures s.Closed? ==> r
    ensures s.Open? ==> (r <==> s.pos == |s.contents|)
  {
    Position(s) == Length(s)
  }

  /** `isSeekable()`: exactly while `seek` does not fail for being closed. */
  function IsSeekable(s: State): (r: bool)
    ensures r <==> Seek(s, 0, SeekCur).Ok?
  {
    s.Open?
  }

  /** `isReadable()`: exactly while `read` does not fail for being closed. */
  function IsReadable(s: State): (r: bool)
    ensures Valid(s) ==> (r <==> Read(s, 0).Ok?)
  {
    s.Open?
  }

  /** `isWritable()`: a string stream never is. */
  function IsWritable(s: State): (r: bool)
    ensures !r
  {
    false
  }

  /** `write($string)`: always throws, whatever the data, even when empty. */
  function Write(s: State, data: seq<byte>): (r: Result<nat, Error>)
    ensures r == Err(NotWritable)
  {
    Err(NotWritable)
  }

  /** The position a seek offset is measured from. */
  function Base(s: State, whence: Whence): int
    requires s.Open? && !whence.Other?
  {
    match whence
    case SeekSet => 0
    case SeekCur => s.pos
    case SeekEnd => |s.contents|
  }

  /** `seek($offset, $whence)`: fails when closed, for an unknown origin, or
      for a negative target; otherwise moves to the target, clamped to the
      end. */
  function Seek(s: State, offset: int, whence: Whence): (r: Result<State, Error>)
    ensures s.Closed? ==> r == Err(StreamClosed)
    ensures s.Open? && whence.Other? ==> r == Err(InvalidWhence)
    ensures s.Open? && !whence.Other? ==>
              (r.Err? <==> Base(s, whence) + offset < 0) &&
              (r.Err? ==> r.error == SeekBeforeStart)
    ensures r.Ok? ==>
              && s.Open? && !whence.Other?
              && r.value.Open? && r.value.contents == s.contents && Valid(r.value)
              && (Base(s, whence) + offset <= |s.contents| ==> r.value.pos == Base(s, whence) + offset)
              && (Base(s, whence) + offset >= |s.contents| ==> r.value.pos == |s.contents|)
  {
    if s.Closed? then Err(StreamClosed)
    else if whence.Other? then Err(InvalidWhence)
    else
      var target := Base(s, whence) + offset;
      if target < 0 then Err(SeekBeforeStart)
      else Ok(Open(s.contents, Min(target, |s.contents|)))
  }

  /** `rewind()`: `seek(0)` with the default origin SEEK_SET. */
  function Rewind(s: State): (r: Result<State, Error>)
    ensures s.Closed? ==> r == Err(StreamClosed)
    ensures s.Open? ==> r == Ok(Open(s.contents, 0))
  {
    Seek(s, 0, SeekSet)
  }

  /** `read($length)`: rejects a negative length first, then seeks forward by
      `length` from the current position (which fails on a closed stream and
      clamps at the end) and returns the bytes passed over. */
  function Read(s: State, length: int): (r: Result<Step<seq<byte>>, Error>)
    requires Valid(s)
    ensures length < 0 ==> r == Err(NegativeLength)
    ensures length >= 0 && s.Closed? ==> r == Err(StreamClosed)
    ensures length >= 0 && s.Open? ==> r.Ok?
    ensures r.Ok? ==>
              && s.Open? && Valid(r.value.state)
              && r.value.state.Open? && r.value.state.contents == s.contents
              && r.value.state.pos == Min(s.pos + length, |s.contents|)
              && |r.value.out| == r.value.state.pos - s.pos
              && (forall i :: 0 <= i < |r.value.out| ==> r.value.out[i] == s.contents[s.pos + i])
  {
    if length < 0 then Err(NegativeLength)
    else
      var start := Position(s);
      var s' :- Seek(s, length, SeekCur);
      Ok(Step(s', Substr(s'.contents, start, length)))
  }

  /** `getContents()`: `read(strlen(contents) - position)`, the rest of the
      buffer. On a closed stream that is `read(0)`, whose seek fails. */
  function GetContents(s: State): (r: Result<Step<seq<byte>>, Error>)
    requires Valid(s)
    ensures s.Closed? ==> r == Err(StreamClosed)
    ensures s.Open? ==>
              && r.Ok? && r.value.out == s.contents[s.pos..]
              && r.value.state == Open(s.contents, |s.contents|)
              && Eof(r.value.state)
  {
    Read(s, Length(s) - Position(s))
  }

  const METADATA_KEYS: set<string> :=
    {"timed_out", "blocked", "eof", "unread_bytes", "stream_type", "wrapper_data", "seekable", "uri"}

  /** The fixed array `getMetadata` builds. */
  function MetadataMap(s: State): (m: map<string, Value>)
    ensures m.Keys == METADATA_KEYS
  {
    map[
      "timed_out" := Bool(false),
      "blocked" := Bool(false),
      "eof" := Bool(Eof(s)),
      "unread_bytes" := Int(0),
      "stream_type" := Str("string"),
      "wrapper_data" := Null,
      "seekable" := Bool(IsSeekable(s)),
      "uri" := Str("")
    ]
  }

  /** `getMetadata($key = null)`: the whole array without a key, the entry for
      a known key, and null (not an exception) for any other key. */
  function GetMetadata(s: State, key: Option<string>): (r: Metadata)
    ensures key.None? ==> r == All(MetadataMap(s))
    ensures key.Some? ==> r.Entry?
    ensures key.Some? && key.value !in METADATA_KEYS ==> r.value == Null
    ensures key.Some? && key.value in METADATA_KEYS ==> r.value == MetadataMap(s)[key.value]
  {
    var data := MetadataMap(s);
    match key
    case None => All(data)
    case Some(k) => if k in data then Entry(data[k]) else Entry(Null)
  }
}
