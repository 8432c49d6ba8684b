/**
 * The register-dump reader of the stand-alone writer (writeRegisterFile.py `readRegister`):
 * a dump holds comma-separated `address,value` lines in hexadecimal between two marker lines
 * containing "configuration registers". The file's lines are given as a sequence of strings.
 */
module RegisterFile {

  import opened Wrappers
  import opened Text

  /** The text that marks the start and the end of the register block. */
  const Marker: string := "configuration registers"

  /** `marker in line`; the dump uses Marker, the lemmas hold for any marker text. */
  predicate IsMarker(line: string, marker: string)
  {
    Contains(line, marker)
  }

  /** One register line: `int(segments[0], 16), int(segments[1], 16)` after `split(",")`.
      Fewer than two segments or a segment that is not hexadecimal is the error Python raises. */
  function ParseLine(line: string): Result<(int, int)>
  {
    var segments := Split(line, ',');
    if |segments| < 2 then Err("list index out of range")
    else
      match (ParseInteger(segments[0], 16), ParseInteger(segments[1], 16))
      case (Some(a), Some(v)) => Ok((a, v))
      case _ => Err("invalid literal for int() with base 16")
  }

  /** The lines that are parsed: those seen while reading is on, markers excluded, in order.
      `reading` is the state of the toggle before the first line. */
  function RegisterLines(lines: seq<string>, reading: bool, marker: string): (r: seq<string>)
    ensures forall k :: 0 <= k < |r| ==> !IsMarker(r[k], marker)
    ensures |r| <= |lines|
  {
    if |lines| == 0 then []
    else if IsMarker(lines[0], marker) then RegisterLines(lines[1..], !reading, marker)
    else if reading then [lines[0]] + RegisterLines(lines[1..], reading, marker)
    else RegisterLines(lines[1..], reading, marker)
  }

  /** Every parsed line in turn, stopping at the first that fails. */
  function ParseAll(lines: seq<string>): (r: Result<seq<(int, int)>>)
    ensures r.Ok? ==> |r.value| == |lines|
  {
    if |lines| == 0 then Ok([])
    else
      match ParseLine(lines[0])
      case Err(e) => Err(e)
      case Ok(p) => Prefixed([p], ParseAll(lines[1..]))
  }

  /** `done` put in front of a successful result; an error stays the error. */
  function Prefixed(done: seq<(int, int)>, rest: Result<seq<(int, int)>>): Result<seq<(int, int)>>
  {
    match rest
    case Ok(ps) => Ok(done + ps)
    case Err(e) => Err(e)
  }

  /** Nothing in front changes nothing. */
  lemma PrefixedNothing(rest: Result<seq<(int, int)>>)
    ensures Prefixed([], rest) == rest
  {
    match rest {
      case Ok(ps) => assert [] + ps == ps;
      case Err(_) =>
    }
  }

  /** Putting done, then p, in front is putting done + [p] in front. */
  lemma PrefixedStep(done: seq<(int, int)>, p: (int, int), rest: Result<seq<(int, int)>>)
    ensures Prefixed(done, Prefixed([p], rest)) == Prefixed(done + [p], rest)
  {
    match rest {
      case Ok(ps) => assert done + ([p] + ps) == done + [p] + ps;
      case Err(_) =>
    }
  }

  /** The parse succeeds exactly when every line parses, and then holds one pair per line,
      the k-th pair being the k-th line's. */
  lemma {:induction false} ParseAllLines(lines: seq<string>)
    ensures ParseAll(lines).Ok? ==> forall k :: 0 <= k < |lines| ==> ParseLine(lines[k]) == Ok(ParseAll(lines).value[k])
    ensures ParseAll(lines).Err? <==> exists k :: 0 <= k < |lines| && ParseLine(lines[k]).Err?
  {
    if |lines| > 0 {
      var rest := ParseAll(lines[1..]);
      ParseAllLines(lines[1..]);
      assert forall k :: 0 < k < |lines| ==> lines[k] == lines[1..][k - 1];
      match ParseLine(lines[0]) {
        case Err(_) =>
          assert ParseLine(lines[0]).Err?;
        case Ok(p) =>
          match rest {
            case Ok(ps) =>
              assert ParseAll(lines) == Ok([p] + ps);
              forall k | 0 <= k < |lines| ensures ParseLine(lines[k]) == Ok(([p] + ps)[k]) {
                if k > 0 {
                  assert ParseLine(lines[1..][k - 1]) == Ok(ps[k - 1]);
                }
              }
            case Err(_) =>
              assert ParseAll(lines) == rest;
              var k :| 0 <= k < |lines[1..]| && ParseLine(lines[1..][k]).Err?;
              assert ParseLine(lines[k + 1]).Err?;
          }
      }
    }
  }

  /** What `readRegister` returns for the lines of a file, or the error it raises. */
  function RegisterDump(lines: seq<string>, marker: string): Result<seq<(int, int)>>
  {
    ParseAll(RegisterLines(lines, false, marker))
  }

  /** `readRegister`: the register block of the lines, between markers "configuration registers". */
  method ReadRegister(lines: seq<string>) returns (r: Result<seq<(int, int)>>)
    ensures r == RegisterDump(lines, Marker)
  {
    r := ReadBlocks(lines, Marker);
  }

  /** The loop of `readRegister`: one pass over the lines, flipping `toggleRead` at each
      marker and appending one pair per line read while the toggle is on. */
  method ReadBlocks(lines: seq<string>, marker: string) returns (r: Result<seq<(int, int)>>)
    ensures r == RegisterDump(lines, marker)
  {
    var toggleRead := false;
    var register: seq<(int, int)> := [];
    var i := 0;
    assert lines[0..] == lines;
    PrefixedNothing(RegisterDump(lines, marker));
    while i < |lines|
      invariant 0 <= i <= |lines|
      invariant RegisterDump(lines, marker) == Prefixed(register, ParseAll(RegisterLines(lines[i..], toggleRead, marker)))
    {
      var line := lines[i];
      assert lines[i..][1..] == lines[i + 1..];
      if IsMarker(line, marker) {
        toggleRead := !toggleRead;
        i := i + 1;
        continue;
      }
      if toggleRead {
        match ParseLine(line)
        case Err(e) =>
          ghost var parsed := RegisterLines(lines[i..], toggleRead, marker);
          assert parsed == [line] + RegisterLines(lines[i + 1..], toggleRead, marker);
          assert parsed[0] == line;
          assert ParseAll(parsed) == Err(e);
          return Err(e);
        case Ok(p) =>
          PrefixedStep(register, p, ParseAll(RegisterLines(lines[i + 1..], toggleRead, marker)));
          register := register + [p];
      }
      i := i + 1;
    }
    assert RegisterLines(lines[i..], toggleRead, marker) == [];
    assert register + [] == register;
    r := Ok(register);
  }

  /** The state of the toggle after the lines, starting from `reading`. */
  function Toggled(lines: seq<string>, reading: bool, marker: string): bool
  {
    if |lines| == 0 then reading else Toggled(lines[1..], if IsMarker(lines[0], marker) then !reading else reading, marker)
  }

  /** Reading a + b is reading a, then reading b from the toggle state a leaves. */
  lemma {:induction false} RegisterLinesConcat(a: seq<string>, b: seq<string>, reading: bool, marker: string)
    ensures RegisterLines(a + b, reading, marker) == RegisterLines(a, reading, marker) + RegisterLines(b, Toggled(a, reading, marker), marker)
    decreases |a|
  {
    if |a| == 0 {
      assert a + b == b;
    } else {
      var next := if IsMarker(a[0], marker) then !reading else reading;
      assert (a + b)[0] == a[0];
      assert (a + b)[1..] == a[1..] + b;
      RegisterLinesConcat(a[1..], b, next, marker);
    }
  }

  /** Lines with no marker are all kept while reading and all skipped otherwise, and leave
      the toggle as it was. */
  lemma {:induction false} NoMarkerLines(lines: seq<string>, reading: bool, marker: string)
    requires forall k :: 0 <= k < |lines| ==> !IsMarker(lines[k], marker)
    ensures Toggled(lines, reading, marker) == reading
    ensures RegisterLines(lines, reading, marker) == if reading then lines else []
  {
    if |lines| > 0 {
      NoMarkerLines(lines[1..], reading, marker);
      assert lines == [lines[0]] + lines[1..];
    }
  }

  /** A file with no marker line yields no register. */
  lemma NoBlockNoRegisters(lines: seq<string>, marker: string)
    requires forall k :: 0 <= k < |lines| ==> !IsMarker(lines[k], marker)
    ensures RegisterDump(lines, marker) == Ok([])
  {
    NoMarkerLines(lines, false, marker);
  }

  /** A dump laid out as header, marker, register lines, marker, trailer yields exactly one
      pair per register line, in order; neither the header, the trailer nor the markers is
      parsed. */
  lemma DumpBlock(header: seq<string>, start: string, body: seq<string>, end: string, trailer: seq<string>, marker: string)
    requires IsMarker(start, marker) && IsMarker(end, marker)
    requires forall k :: 0 <= k < |header| ==> !IsMarker(header[k], marker)
    requires forall k :: 0 <= k < |body| ==> !IsMarker(body[k], marker)
    requires forall k :: 0 <= k < |trailer| ==> !IsMarker(trailer[k], marker)
    ensures RegisterLines(header + [start] + body + [end] + trailer, false, marker) == body
    ensures RegisterDump(header + [start] + body + [end] + trailer, marker) == ParseAll(body)
  {
    var from := [start] + (body + ([end] + trailer));
    assert RegisterLines(header + from, false, marker) == body by {
      BlockFromStart(start, body, end, trailer, marker);
      NoMarkerLines(header, false, marker);
      RegisterLinesConcat(header, from, false, marker);
    }
    Regroup(header, [start], body, [end], trailer);
  }

  /** Five pieces joined left to right are the same lines joined right to left. */
  lemma Regroup<T>(a: seq<T>, b: seq<T>, c: seq<T>, d: seq<T>, e: seq<T>)
    ensures a + b + c + d + e == a + (b + (c + (d + e)))
  {
    assert a + b + c + d + e == a + b + c + (d + e);
    assert a + b + c + (d + e) == a + b + (c + (d + e));
    assert a + b + (c + (d + e)) == a + (b + (c + (d + e)));
  }

  /** From the opening marker on, only the lines up to the closing marker are read. */
  lemma BlockFromStart(start: string, body: seq<string>, end: string, trailer: seq<string>, marker: string)
    requires IsMarker(start, marker) && IsMarker(end, marker)
    requires forall k :: 0 <= k < |body| ==> !IsMarker(body[k], marker)
    requires forall k :: 0 <= k < |trailer| ==> !IsMarker(trailer[k], marker)
    ensures RegisterLines([start] + (body + ([end] + trailer)), false, marker) == body
  {
    var tail := [end] + trailer;
    assert RegisterLines(tail, true, marker) == [] && Toggled(tail, true, marker) == false by {
      assert tail[0] == end && tail[1..] == trailer;
      NoMarkerLines(trailer, false, marker);
    }
    var rest := body + tail;
    assert RegisterLines(rest, true, marker) == body by {
      NoMarkerLines(body, true, marker);
      RegisterLinesConcat(body, tail, true, marker);
      assert body + [] == body;
    }
    var from := [start] + rest;
    assert from[0] == start && from[1..] == rest;
  }
}
