/** The scenarios of the class's unit tests, replayed on the model. */
module Scenarios {
  import opened Wrappers
  import opened StringStream

  predicate IsAscii(str: string) {
    forall i :: 0 <= i < |str| ==> str[i] as int < 128
  }

  /** The bytes of an ASCII string literal. */
  function Ascii(str: string): (b: seq<byte>)
    requires IsAscii(str)
    ensures |b| == |str|
    ensures forall i :: 0 <= i < |str| ==> b[i] as int == str[i] as int
  {
    seq(|str|, i requires 0 <= i < |str| => str[i] as int as byte)
  }

  const READ_TEXT: string := "This is a string"
  const SEEK_TEXT: string := "This is a fourty characters long string."

  /** testRead: `read(7)` gives "This is", `getContents()` the rest, and the
      string cast the whole text. */
  lemma ReadScenario()
    ensures IsAscii(READ_TEXT) && IsAscii("This is") && IsAscii(" a string")
    ensures
      var s0 := New(Ascii(READ_TEXT));
      var r1 := Read(s0, 7);
      && IsReadable(s0)
      && r1.Ok? && r1.value.out == Ascii("This is") && Tell(r1.value.state) == Ok(7)
      && var r2 := GetContents(r1.value.state);
      && r2.Ok? && r2.value.out == Ascii(" a string")
      && ToString(r2.value.state).out == Ascii(READ_TEXT)
  {
    var text := Ascii(READ_TEXT);
    assert Ascii("This is") == text[..7];
    assert Ascii(" a string") == text[7..];
  }

  /** testSeek: seeks from the start, the current position and the end,
      the string cast moving to the end, an over-long read clamped, and
      rewind. */
  lemma SeekScenario()
    ensures IsAscii(SEEK_TEXT) && IsAscii("long string.")
    ensures
      var s0 := New(Ascii(SEEK_TEXT));
      && IsSeekable(s0) && Size(s0) == Some(40)
      && var r1 := Seek(s0, 10, SeekSet);
      && r1.Ok? && Tell(r1.value) == Ok(10)
      && var r2 := Seek(r1.value, -2, SeekCur);
      && r2.Ok? && !Eof(r2.value) && Tell(r2.value) == Ok(8)
      && var whole := ToString(r2.value);
      && |whole.out| == 40 && Eof(whole.state)
      && var r3 := Seek(whole.state, -12, SeekEnd);
      && r3.Ok? && Tell(r3.value) == Ok(28)
      && var r4 := Read(r3.value, 999);
      && r4.Ok? && r4.value.out == Ascii("long string.")
      && var r5 := Rewind(r4.value.state);
      && r5.Ok? && Tell(r5.value) == Ok(0)
  {
    var text := Ascii(SEEK_TEXT);
    assert Ascii("long string.") == text[28..];
  }

  /** testWrite: not writable, `write` throws, and the contents survive. */
  lemma WriteScenario()
    ensures IsAscii("A stream") && IsAscii("Test")
    ensures
      var s0 := New(Ascii("A stream"));
      && !IsWritable(s0)
      && Write(s0, Ascii("Test")).Err?
      && ToString(s0).out == Ascii("A stream")
  {
  }

  /** testClose: after `close()` the stream is at its end, casts to the empty
      string, is neither readable nor seekable, has no size, and `tell()` and
      `seek(2)` throw. */
  lemma CloseScenario()
    ensures IsAscii("A stream")
    ensures
      var s := Close(New(Ascii("A stream")));
      && Eof(s) && ToString(s).out == []
      && !IsReadable(s) && !IsSeekable(s) && Size(s) == None
      && Tell(s).Err? && Seek(s, 2, SeekSet).Err?
  {
  }

  /** testDetach: `detach()` returns null. */
  lemma DetachScenario()
    ensures IsAscii("A stream")
    ensures Detach(New(Ascii("A stream"))).out == Null
  {
  }

  /** testMetadata: the array has `blocked` and `uri`, its `eof` and
      `seekable` entries match the queries, `timed_out` and `unread_bytes` are
      not null, and an unknown key gives null. */
  lemma MetadataScenario()
    ensures IsAscii("A stream")
    ensures
      var s := New(Ascii("A stream"));
      var meta := GetMetadata(s, None);
      && meta.All? && "blocked" in meta.entries && "uri" in meta.entries
      && meta.entries["eof"] == Bool(Eof(s))
      && meta.entries["seekable"] == Bool(IsSeekable(s))
      && GetMetadata(s, Some("timed_out")).value != Null
      && GetMetadata(s, Some("unread_bytes")).value != Null
      && GetMetadata(s, Some("non existing key")).value == Null
  {
  }
}
