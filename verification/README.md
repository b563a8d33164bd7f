# StringStream: a verified model of a read-only in-memory PSR-7 stream

`Jgut\Spiral\StringStream` is a read-only, seekable byte stream over a fixed
string. It implements the stream interface of PSR-7 (section 1.3 "Streams" of
the PHP-FIG HTTP message interfaces). The PHP object has two fields:
`contents` holds the string, or `null` once the stream is closed, and
`position` is an integer cursor. This project models that object in Dafny and
proves what its methods promise.

- `wrappers.dfy`, module `Wrappers`: `Option` (PHP's `int|null` returns) and
  `Result` (a value, or the exception a method throws).
- `stream.dfy`, module `StringStream`: the state `Open(contents, pos) | Closed`,
  the invariant `Valid` (`pos <= |contents|` while open) and one pure function
  per public method. A method that changes the object returns the new state
  together with its return value. A method that throws returns only the error
  kind, and the caller keeps its old state. This matches the PHP code, where
  every failing method throws before it assigns a field.
- `trace.dfy`, module `Trace`: a sequence of calls on one object, each either
  succeeding or throwing. It proves that closing is irreversible, that nothing
  but `close`/`detach` ever changes the buffer, and that `__toString` returns
  the original string after any reads and seeks.
- `properties.dfy`, module `Properties`: properties relating several methods.
  These include the read/getContents round trip, the closed-stream
  behaviour, the order of checks in `read`, and the metadata array agreeing
  with `eof()` and `isSeekable()`.
- `scenarios.dfy`, module `Scenarios`: the six scenarios of
  `tests/Spiral/StringStreamTest.php`, replayed on concrete ASCII strings.

Modelling choices:
- Bytes are a `byte` newtype over `0..255`. PHP strings are opaque byte
  strings here.
- `$whence` is `SeekSet | SeekCur | SeekEnd | Other(code)`. `WhenceOf` maps the
  PHP integer constants 0, 1 and 2 to the three origins and keeps every other
  integer as `Other`.
- There is one error kind per failure condition: `StreamClosed`,
  `InvalidWhence`, `SeekBeforeStart`, `NegativeLength` and `NotWritable`.
  `seek` with an unknown origin and `read` with a negative length throw
  different messages (src/StringStream.php:167, 224), so they are separate
  kinds.
- `read` checks the length before it checks whether the stream is closed. So
  `read(-1)` on a closed stream throws the negative-length error, not the
  closed-stream one (`Properties.ClosedStream`).
- `eof()` and `getContents()` are written the way the code computes them.
  They use `Length`, which is `strlen(contents)` with `strlen(null) == 0`,
  and `Position`, which is 0 once closed. The contracts then state the
  tagged-state meaning. A closed stream is always at EOF. `getContents()` on
  a closed stream becomes `read(0)`, whose seek throws.

## Model

| member | source | states |
|---|---|---|
| StringStream.New | src/StringStream.php:50-54 | a new stream is valid, readable and seekable, at position 0, sized as its contents, at EOF only when empty, and casts back to the given bytes |
| StringStream.ToString | src/StringStream.php:61-69 | returns the whole buffer whatever the position and leaves the stream valid and at EOF with contents and size unchanged; a closed stream gives the empty string and stays closed |
| StringStream.Close | src/StringStream.php:79-85 | after close the stream is at EOF, neither readable, seekable nor writable, has no size and `tell` throws; closing a closed stream changes nothing |
| StringStream.Detach | src/StringStream.php:98-102 | detach returns null and leaves the same state as close |
| StringStream.Size | src/StringStream.php:109-116 | a size exists exactly when `tell` succeeds, equals the byte length, and is never below the position |
| StringStream.Tell | src/StringStream.php:125-132 | throws StreamClosed exactly on a closed stream, otherwise returns the position |
| StringStream.Eof | src/StringStream.php:137-141 | a closed stream is always at EOF; an open one exactly when the position equals the length |
| StringStream.IsSeekable | src/StringStream.php:146-149 | true exactly when a seek does not throw for a closed stream |
| StringStream.IsReadable | src/StringStream.php:213-216 | true exactly when a zero-length read succeeds |
| StringStream.IsWritable | src/StringStream.php:192-195 | always false |
| StringStream.Write | src/StringStream.php:205-208 | always throws NotWritable, whatever the state and data |
| StringStream.WhenceOf | src/StringStream.php:160-168 | the codes 0, 1 and 2 are exactly the origins from the start, the current position and the end; any other code is an unrecognised origin carrying that code |
| StringStream.Seek | src/StringStream.php:154-177 | throws StreamClosed when closed and InvalidWhence for an unknown origin; otherwise throws SeekBeforeStart exactly when base plus offset is negative; on success keeps the contents, stays valid, and lands on the target or on the end if the target is past it |
| StringStream.Rewind | src/StringStream.php:182-185 | throws StreamClosed when closed, otherwise moves to position 0 with the contents unchanged |
| StringStream.Substr | src/StringStream.php:229 | the slice has length min(length, bytes left) and its i-th byte is the byte at start plus i |
| StringStream.Read | src/StringStream.php:221-230 | throws NegativeLength for a negative length, then StreamClosed when closed, and otherwise succeeds; on success the new position is min(pos + length, size), the contents are unchanged, and the result is exactly the bytes between the old and the new position, in order |
| StringStream.GetContents | src/StringStream.php:235-238 | throws StreamClosed when closed; otherwise returns every byte from the position on and leaves the stream at EOF with its contents unchanged |
| StringStream.MetadataMap | src/StringStream.php:245-254 | the metadata array has exactly the eight keys timed_out, blocked, eof, unread_bytes, stream_type, wrapper_data, seekable and uri |
| StringStream.GetMetadata | src/StringStream.php:243-263 | without a key returns the whole array; with a key always returns a single value, never an error: the array's entry for a known key and null for any other key |
| Trace.Apply | src/StringStream.php:61-238 | any single call, succeeding or throwing, leaves a valid state |
| Trace.Run | src/StringStream.php:50-238 | any sequence of calls keeps the position within the contents |
| Trace.ApplyKeepsContents | src/StringStream.php:79-102 | a single call leaves the stream open exactly when it was open and the call is not close or detach, and never changes an open buffer |
| Trace.ClosedIsFinal | src/StringStream.php:79-85 | once closed, a stream stays closed whatever sequence of calls follows |
| Trace.RunKeepsContents | src/StringStream.php:79-102 | after any call sequence the stream is open exactly when it started open and no call closed it, and an open stream still holds its original buffer |
| Trace.ToStringAfterAnyCalls | src/StringStream.php:61-69 | after any calls other than close and detach, the string cast returns the original buffer and leaves `tell` at its length |
| Properties.ReadThenGetContents | src/StringStream.php:221-238 | from any open position, `read(n)` followed by `getContents()` gives exactly the bytes from that position on, and ends at EOF |
| Properties.NewReadThenGetContents | tests/Spiral/StringStreamTest.php:33-37 | on a fresh stream, `read(n)` followed by `getContents()` reconstructs the original string for every n >= 0 |
| Properties.ReadAtEnd | src/StringStream.php:227-229 | a read at EOF returns the empty string and leaves the state as it was |
| Properties.ClosedStream | src/StringStream.php:79-238 | after close, and after detach which leaves the same state: at EOF, empty string cast, not readable, seekable or writable, no size; tell, rewind, getContents and every seek throw StreamClosed; a read throws StreamClosed, or NegativeLength for a negative length since that check comes first; closing again is a no-op |
| Properties.RewindIsSeekStart | src/StringStream.php:182-185 | rewind is seek(0) from the code SEEK_SET, and on an open stream it succeeds with `tell` at 0 |
| Properties.SeekFromEnd | src/StringStream.php:164-176 | a seek from the end fails exactly when length plus offset is negative, and a non-negative offset lands on the end |
| Properties.TellAfterSeek | src/StringStream.php:160-176 | a seek from the start to a non-negative target succeeds and `tell` then reports min(target, size); a negative target throws SeekBeforeStart |
| Properties.SeekForwardBack | src/StringStream.php:162-176 | seeking forward by d within the buffer and back by d returns the original state |
| Properties.MetadataReflectsState | src/StringStream.php:243-263 | the eof and seekable entries equal `eof()` and `isSeekable()`; timed_out and blocked are false, unread_bytes 0, stream_type "string", wrapper_data null, uri empty; an unknown key gives null |
| Scenarios.ReadScenario | tests/Spiral/StringStreamTest.php:31-39 | on "This is a string", read(7) gives "This is" with tell 7, getContents gives " a string", and the cast gives the whole text |
| Scenarios.SeekScenario | tests/Spiral/StringStreamTest.php:41-65 | on the 40-byte text the sequence of seeks, casts, reads and the rewind yields positions 10, 8, 40, 28 and 0 and the final 12 bytes |
| Scenarios.WriteScenario | tests/Spiral/StringStreamTest.php:67-75 | the stream is not writable, write throws, and the cast still gives the text |
| Scenarios.CloseScenario | tests/Spiral/StringStreamTest.php:77-89 | after close: EOF, empty cast, not readable or seekable, no size, and tell and seek(2) throw |
| Scenarios.DetachScenario | tests/Spiral/StringStreamTest.php:91-96 | detach returns null |
| Scenarios.MetadataScenario | tests/Spiral/StringStreamTest.php:98-113 | the array has blocked and uri, its eof and seekable entries match the queries, timed_out and unread_bytes are not null, and an unknown key is null |

## Left out

- `src/Option/OptionRegex.php` and the other validated option values are not
  modelled. Their validation is a `preg_match` against a caller-supplied
  regular expression, plus `trim` and `sprintf`. The file-path options check
  the real filesystem.
- The cURL transport and the PSR-7 request/response code are not part of this
  model. They only use the stream through its public methods.
- PHP's loose typing is not modelled. Offsets and lengths are integers, the
  buffer is a byte sequence, and `(int)` and `(string)` casts of other types
  do not arise. `substr` at the end of the string is the empty string; older
  PHP versions return `false` there.
- StringStream.Seek: integers are unbounded. In PHP, `$from + (int) $offset`
  past `PHP_INT_MAX` becomes a float, and that case is not modelled.
- Exception messages are not modelled. Each failure condition is one error kind.
  `tell` and `seek` on a closed stream have different messages but share the
  kind `StreamClosed`.
- `Other(code)` with code 0, 1 or 2 never arises from `WhenceOf`, which is
  how every call sequence in `Trace` reads its raw `$whence` integer. `Seek`
  treats any `Other` value as an unrecognised origin.
