/** The line protocol of a client connection: one 4096-byte buffer over an arbitrarily chunked stream. */
module LineFramer {
  type Byte = char

  const NEWLINE: Byte := '\n'
  const BUFFER_SIZE := 4096

  type Line = seq<Byte>

  /** The length of the first line: everything before the first newline. */
  function FirstNewline(s: seq<Byte>): (n: nat)
    ensures n <= |s|
    ensures forall i :: 0 <= i < n ==> s[i] != NEWLINE
    ensures n < |s| ==> s[n] == NEWLINE
  {
    if s == [] || s[0] == NEWLINE then 0 else 1 + FirstNewline(s[1..])
  }

  /** Every complete line up to the first one that a whole buffer cannot end. */
  function Lines(s: seq<Byte>): (lines: seq<Line>)
    decreases |s|
  {
    var n := FirstNewline(s);
    if n == |s| || n >= BUFFER_SIZE then [] else [s[..n]] + Lines(s[n + 1..])
  }

  /** The lines with their newlines, one after the other. */
  function Join(lines: seq<Line>): (s: seq<Byte>)
  {
    if lines == [] then [] else lines[0] + [NEWLINE] + Join(lines[1..])
  }

  predicate NoNewline(s: seq<Byte>)
  {
    forall i :: 0 <= i < |s| ==> s[i] != NEWLINE
  }

  predicate IsShortLine(line: Line)
  {
    |line| < BUFFER_SIZE && NoNewline(line)
  }

  /** What can follow the last line: an unfinished line, or one that overruns the buffer. */
  predicate IsRemainder(s: seq<Byte>)
  {
    FirstNewline(s) == |s| || FirstNewline(s) >= BUFFER_SIZE
  }

  lemma {:induction false} FirstNewlineAt(s: seq<Byte>, n: nat)
    requires n <= |s| && NoNewline(s[..n])
    ensures FirstNewline(s) >= n
    ensures n < |s| && s[n] == NEWLINE ==> FirstNewline(s) == n
  {
    if n > 0 {
      assert s[0] == s[..n][0];
      assert s[1..][..n - 1] == s[..n][1..];
      FirstNewlineAt(s[1..], n - 1);
    }
  }

  /** A stream splits in exactly one way into short lines and a remainder, and Lines finds it. */
  lemma {:induction false} LinesAreTheOnlySplit(s: seq<Byte>, lines: seq<Line>, rest: seq<Byte>)
    requires s == Join(lines) + rest && IsRemainder(rest)
    requires forall line :: line in lines ==> IsShortLine(line)
    ensures lines == Lines(s)
    decreases |lines|
  {
    if lines == [] {
      assert s == rest;
    } else {
      var n := |lines[0]|;
      assert s == lines[0] + [NEWLINE] + (Join(lines[1..]) + rest);
      assert s[..n] == lines[0] && s[n + 1..] == Join(lines[1..]) + rest;
      assert IsShortLine(lines[0]);
      FirstNewlineAt(s, n);
      LinesAreTheOnlySplit(s[n + 1..], lines[1..], rest);
    }
  }

  lemma {:induction false} LinesSplitTheStream(s: seq<Byte>) returns (rest: seq<Byte>)
    ensures s == Join(Lines(s)) + rest && IsRemainder(rest)
    ensures forall line :: line in Lines(s) ==> IsShortLine(line)
    decreases |s|
  {
    var n := FirstNewline(s);
    if n == |s| || n >= BUFFER_SIZE {
      rest := s;
    } else {
      rest := LinesSplitTheStream(s[n + 1..]);
      var lines := Lines(s);
      assert lines[0] == s[..n] && lines[1..] == Lines(s[n + 1..]);
      assert s == s[..n] + [NEWLINE] + s[n + 1..];
    }
  }

  /** Fills the free part of the buffer with the next bytes of the stream, as many as happen to be there. */
  method Read(stream: seq<Byte>, position: nat, buffer: array<Byte>, used: nat) returns (bytes: nat)
    requires position <= |stream| && used < buffer.Length
    modifies buffer
    ensures bytes == 0 <==> position == |stream|
    ensures position + bytes <= |stream| && used + bytes <= buffer.Length
    ensures buffer[..used + bytes] == old(buffer[..used]) + stream[position..position + bytes]
  {
    if position == |stream| { return 0; }
    bytes :| 1 <= bytes && position + bytes <= |stream| && used + bytes <= buffer.Length;
    forall i | 0 <= i < bytes { buffer[used + i] := stream[position + i]; }
  }

  /** Moves the unfinished line to the front of the buffer. */
  method Compact(buffer: array<Byte>, begin: nat, count: nat)
    requires begin + count <= buffer.Length
    modifies buffer
    ensures buffer[..count] == old(buffer[begin..begin + count])
  {
    for i := 0 to count
      invariant buffer[..i] == old(buffer[begin..begin + i])
      invariant forall j :: begin + i <= j < begin + count ==> buffer[j] == old(buffer[j])
    {
      buffer[i] := buffer[begin + i];
      assert buffer[..i + 1] == buffer[..i] + [buffer[i]];
    }
  }

  /** One newline closes one line. */
  lemma TakeLine(s: seq<Byte>, n: nat)
    requires n < |s| && n < BUFFER_SIZE && NoNewline(s[..n]) && s[n] == NEWLINE
    ensures Lines(s) == [s[..n]] + Lines(s[n + 1..])
  {
    FirstNewlineAt(s, n);
    hide FirstNewline;
  }

  lemma NoMoreLines(s: seq<Byte>, n: nat)
    requires n <= |s| && NoNewline(s[..n]) && (n == |s| || n == BUFFER_SIZE)
    ensures Lines(s) == []
  {
    FirstNewlineAt(s, n);
  }

  // ---------------------------------------------------------------- replies

  /** The replies to the lines from number first on are all written to the socket. */
  predicate AllWritten(written: nat -> bool, first: nat, count: nat)
  {
    forall i: nat :: first <= i < first + count ==> written(i)
  }

  /** What has been served of lines that are numbered from first on: all of them, or those up to
      and including the first one whose reply could not be written. */
  predicate Served(lines: seq<Line>, all: seq<Line>, first: nat, written: nat -> bool, open: bool)
  {
    if open then lines == all && AllWritten(written, first, |all|)
    else
      && 0 < |lines| <= |all| && lines == all[..|lines|]
      && AllWritten(written, first, |lines| - 1) && !written(first + |lines| - 1)
  }

  /** One more reply, written or not. */
  lemma ServeOne(lines: seq<Line>, line: Line, rest: seq<Line>, first: nat, written: nat -> bool)
    requires AllWritten(written, first, |lines|)
    ensures written(first + |lines|) ==> AllWritten(written, first, |lines + [line]|)
    ensures !written(first + |lines|) ==> Served(lines + [line], lines + ([line] + rest), first, written, false)
  {
  }

  /** A round after rounds that have served everything. */
  lemma ServeMore(before: seq<Line>, found: seq<Line>, all: seq<Line>, written: nat -> bool, open: bool)
    requires AllWritten(written, 0, |before|) && Served(found, all, |before|, written, open)
    ensures Served(before + found, before + all, 0, written, open)
  {
  }

  /** Serves every complete line in the buffer; the stream beyond the buffer is not looked at. The
      reply to the line with number i is written if and only if written(i). */
  method Scan(buffer: array<Byte>, used: nat, ghost unread: seq<Byte>, first: nat, written: nat -> bool)
    returns (lines: seq<Line>, begin: nat, open: bool)
    requires used <= buffer.Length == BUFFER_SIZE
    ensures open ==> begin <= used && NoNewline(buffer[begin..used]) && AllWritten(written, first, |lines|)
    ensures open ==> Lines(buffer[..used] + unread) == lines + Lines(buffer[begin..used] + unread)
    ensures !open ==> Served(lines, Lines(buffer[..used] + unread), first, written, false)
  {
    hide Lines, Served, AllWritten;
    ghost var all := buffer[..used] + unread;
    lines, begin := [], 0;
    NothingWritten(first, written);
    for index := 0 to used
      invariant begin <= index
      invariant NoNewline(buffer[begin..index])
      invariant Lines(all) == lines + Lines(all[begin..])
      invariant AllWritten(written, first, |lines|)
    {
      if buffer[index] != NEWLINE {
        assert buffer[begin..index + 1] == buffer[begin..index] + [buffer[index]];
        continue;
      }
      ghost var rest := all[begin..];
      ghost var n := index - begin;
      assert rest[..n] == buffer[begin..index] && rest[n + 1..] == all[index + 1..];
      TakeLine(rest, n);
      ServeOne(lines, buffer[begin..index], Lines(all[index + 1..]), first, written);
      lines := lines + [buffer[begin..index]];
      var sent := written(first + |lines| - 1);
      if !sent { return lines, begin, false; }
      begin := index + 1;
    }
    assert all[begin..] == buffer[begin..used] + unread;
    open := true;
  }

  lemma NothingWritten(first: nat, written: nat -> bool)
    ensures AllWritten(written, first, 0)
  {
  }

  /** One round: read, serve the complete lines, keep the rest at the front of the buffer. */
  method Round(stream: seq<Byte>, position: nat, buffer: array<Byte>, used: nat, first: nat, written: nat -> bool)
    returns (lines: seq<Line>, position': nat, used': nat, open: bool)
    requires position <= |stream| && used < buffer.Length == BUFFER_SIZE
    modifies buffer
    ensures !open ==> Served(lines, Lines(old(buffer[..used]) + stream[position..]), first, written, false)
    ensures open ==> AllWritten(written, first, |lines|)
    ensures open ==> position' <= |stream| && used' <= BUFFER_SIZE && (position' == position <==> position == |stream|)
    ensures open ==> position' >= position
    ensures open && position' > position ==> NoNewline(buffer[..used'])
    ensures open ==> Lines(old(buffer[..used]) + stream[position..]) == lines + Lines(buffer[..used'] + stream[position'..])
    ensures open && position' == position ==> lines == [] && used' == used && buffer[..used] == old(buffer[..used])
  {
    hide Lines, NoNewline, Served, AllWritten;
    ghost var kept := buffer[..used];
    var bytes := Read(stream, position, buffer, used);
    position', used' := position + bytes, used + bytes;
    if bytes == 0 {
      assert buffer[..used] == kept;
      NothingWritten(first, written);
      return [], position', used', true;
    }
    assert stream[position..] == stream[position..position'] + stream[position'..];
    assert kept + stream[position..] == buffer[..used'] + stream[position'..];
    var begin;
    lines, begin, open := Scan(buffer, used', stream[position'..], first, written);
    if open {
      ghost var tail := buffer[begin..used'];
      if begin != 0 {
        used' := used' - begin;
        Compact(buffer, begin, used');
      }
      assert buffer[..used'] == tail;
    }
  }

  lemma ServedMeans(lines: seq<Line>, all: seq<Line>, written: nat -> bool, open: bool)
    requires Served(lines, all, 0, written, open)
    ensures open <==> forall i: nat :: i < |all| ==> written(i)
    ensures open ==> lines == all
    ensures !open ==> 0 < |lines| <= |all| && lines == all[..|lines|]
    ensures !open ==> !written(|lines| - 1) && forall i: nat :: i < |lines| - 1 ==> written(i)
  {
  }

  /** The lines handed to the parser, in order, when the reply to line i is written if and only if
      written(i): all lines of the stream, or those up to the first reply that fails. */
  method Run(stream: seq<Byte>, written: nat -> bool) returns (lines: seq<Line>, open: bool)
    ensures open <==> forall i: nat :: i < |Lines(stream)| ==> written(i)
    ensures open ==> lines == Lines(stream)
    ensures !open ==> 0 < |lines| <= |Lines(stream)| && lines == Lines(stream)[..|lines|]
    ensures !open ==> !written(|lines| - 1) && forall i: nat :: i < |lines| - 1 ==> written(i)
  {
    hide Lines, NoNewline, Served, AllWritten;
    var buffer := new Byte[BUFFER_SIZE];
    var used: nat := 0;
    var position: nat := 0;
    lines := [];
    assert buffer[..0] + stream[0..] == stream;
    EmptyHasNoNewline(buffer[..0]);
    NothingWritten(0, written);
    while true
      invariant used < BUFFER_SIZE && position <= |stream|
      invariant NoNewline(buffer[..used])
      invariant Lines(stream) == lines + Lines(buffer[..used] + stream[position..])
      invariant AllWritten(written, 0, |lines|)
      decreases |stream| - position
    {
      ghost var before, ahead := lines, Lines(buffer[..used] + stream[position..]);
      var found, position', used', sent := Round(stream, position, buffer, used, |lines|, written);
      lines := lines + found;
      if !sent {
        ServeMore(before, found, ahead, written, false);
        ServedMeans(lines, Lines(stream), written, false);
        return lines, false;
      }
      WrittenSoFar(before, found, written);
      if position' == position || used' == BUFFER_SIZE {
        NoMoreLines(buffer[..used'] + stream[position'..], used');
        EverythingServed(lines, written);
        assert Lines(stream) == lines + [];
        ServedMeans(lines, Lines(stream), written, true);
        return lines, true;
      }
      position, used := position', used';
    }
  }

  lemma WrittenSoFar(before: seq<Line>, found: seq<Line>, written: nat -> bool)
    requires AllWritten(written, 0, |before|) && AllWritten(written, |before|, |found|)
    ensures AllWritten(written, 0, |before + found|)
  {
  }

  lemma EverythingServed(lines: seq<Line>, written: nat -> bool)
    requires AllWritten(written, 0, |lines|)
    ensures Served(lines, lines + [], 0, written, true)
  {
    assert lines + [] == lines;
  }

  lemma EmptyHasNoNewline(s: seq<Byte>)
    requires s == []
    ensures NoNewline(s)
  {
  }
}
