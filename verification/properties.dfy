/** Properties relating several stream methods: the read/getContents round
    trip, the behaviour of a closed stream, and the metadata array agreeing
    with the query methods. */
module Properties {
  import opened Wrappers
  import opened StringStream

  /** Reading `n` bytes and then the rest gives back everything from the
      position on, without loss, duplication or reordering, and leaves the
      stream at its end. Any non-negative `n` works: a read past the end is
      clamped. */
  lemma ReadThenGetContents(s: State, n: nat)
    requires Valid(s) && s.Open?
    ensures Read(s, n).Ok?
    ensures GetContents(Read(s, n).value.state).Ok?
    ensures Read(s, n).value.out + GetContents(Read(s, n).value.state).value.out == s.contents[s.pos..]
    ensures Eof(GetContents(Read(s, n).value.state).value.state)
  {
  }

  /** The round trip from a freshly built stream reconstructs the string the
      stream was built with. */
  lemma NewReadThenGetContents(contents: seq<byte>, n: nat)
    ensures Read(New(contents), n).Ok?
    ensures Read(New(contents), n).value.out + GetContents(Read(New(contents), n).value.state).value.out == contents
    ensures Eof(GetContents(Read(New(contents), n).value.state).value.state)
  {
  }

  /** A read at or past the end is not an error: it returns nothing and
      stays at the end. */
  lemma ReadAtEnd(s: State, n: nat)
    requires Valid(s) && s.Open? && Eof(s)
    ensures Read(s, n) == Ok(Step(s, []))
  {
  }

  /** After `close()`, and so after `detach()`, every query answers as for
      a closed stream and every positioning or reading method throws:
      `seek` whatever its offset and origin, and `read` with the closed-stream
      error unless its length is negative, which is checked first. Closing
      again changes nothing. */
  lemma ClosedStream(s: State)
    ensures Detach(s).state == Close(s)
    ensures var c := Close(s);
      && Eof(c) && ToString(c) == Step(Closed, [])
      && !IsReadable(c) && !IsSeekable(c) && !IsWritable(c) && Size(c) == None
      && Tell(c) == Err(StreamClosed)
      && (forall offset, whence :: Seek(c, offset, whence) == Err(StreamClosed))
      && Rewind(c) == Err(StreamClosed)
      && (forall n :: Read(c, n) == Err(if n < 0 then NegativeLength else StreamClosed))
      && GetContents(c) == Err(StreamClosed)
      && Close(c) == c
  {
  }

  /** `rewind()` is `seek(0, SEEK_SET)`, and on an open stream it always
      succeeds and leaves `tell()` at 0. */
  lemma RewindIsSeekStart(s: State)
    requires Valid(s)
    ensures Rewind(s) == Seek(s, 0, WhenceOf(SEEK_SET_CODE))
    ensures s.Open? ==> Rewind(s).Ok? && Tell(Rewind(s).value) == Ok(0)
  {
  }

  /** A seek from the end fails exactly when it would land before the start,
      and a seek past the end clamps to the length. */
  lemma SeekFromEnd(s: State, offset: int)
    requires Valid(s) && s.Open?
    ensures Seek(s, offset, SeekEnd).Err? <==> |s.contents| + offset < 0
    ensures offset >= 0 ==> Seek(s, offset, SeekEnd) == Ok(Open(s.contents, |s.contents|))
  {
  }

  /** `tell()` after a successful seek reports the clamped target. */
  lemma TellAfterSeek(s: State, target: int)
    requires Valid(s) && s.Open?
    ensures target >= 0 ==>
              Seek(s, target, SeekSet).Ok? &&
              Tell(Seek(s, target, SeekSet).value) == Ok(Min(target, |s.contents|))
    ensures target < 0 ==> Seek(s, target, SeekSet) == Err(SeekBeforeStart)
  {
  }

  /** Seeking forward by `d` from the current position and then back by `d`
      returns to where the stream was, as long as the forward seek does not
      hit the end. */
  lemma SeekForwardBack(s: State, d: nat)
    requires Valid(s) && s.Open? && s.pos + d <= |s.contents|
    ensures Seek(s, d, SeekCur).Ok?
    ensures Seek(Seek(s, d, SeekCur).value, -(d as int), SeekCur) == Ok(s)
  {
  }

  /** The `eof` and `seekable` entries of the metadata follow `eof()` and
      `isSeekable()`; the other entries are the constants of a memory stream
      that never blocks; an unknown key yields null. */
  lemma MetadataReflectsState(s: State, key: string)
    ensures GetMetadata(s, Some("eof")) == Entry(Bool(Eof(s)))
    ensures GetMetadata(s, Some("seekable")) == Entry(Bool(IsSeekable(s)))
    ensures GetMetadata(s, Some("timed_out")) == Entry(Bool(false))
    ensures GetMetadata(s, Some("blocked")) == Entry(Bool(false))
    ensures GetMetadata(s, Some("unread_bytes")) == Entry(Int(0))
    ensures GetMetadata(s, Some("stream_type")) == Entry(Str("string"))
    ensures GetMetadata(s, Some("wrapper_data")) == Entry(Null)
    ensures GetMetadata(s, Some("uri")) == Entry(Str(""))
    ensures key !in METADATA_KEYS ==> GetMetadata(s, Some(key)) == Entry(Null)
  {
  }
}
