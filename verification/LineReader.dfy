/**
 Buffered reading of lines from a descriptor whose input arrives in arbitrary pieces.
 */
module LineReader {

  type Byte = char

  const MAXBUFFER: nat := 256
  const NEWLINE: Byte := '\n'
  const NUL: Byte := '\0'
  const MINUS_ONE: nat := 0xffff_ffff

  /** What one read() returns; after the last event the peer has closed and every read() returns 0. */
  datatype Event = Data(bytes: seq<Byte>) | Interrupted | Failed

  ghost predicate ScriptOk(s: seq<Event>)
  {
    forall i :: 0 <= i < |s| && s[i].Data? ==> 1 <= |s[i].bytes| <= MAXBUFFER
  }

  ghost predicate NoFailure(s: seq<Event>) { forall i :: 0 <= i < |s| ==> !s[i].Failed? }

  /** All that is still to come. */
  function Bytes(s: seq<Event>): seq<Byte>
  {
    if s == [] then [] else (if s[0].Data? then s[0].bytes else []) + Bytes(s[1..])
  }

  // ---- lines ----

  /** The length of the first line: through a newline, or length - 1 bytes, or all there is. */
  function Cut(stream: seq<Byte>, length: nat): (k: nat)
    ensures k <= |stream| && (k == 0 <==> stream == [] || length <= 1) && (length >= 1 ==> k < length)
  {
    if length <= 1 || stream == [] then 0
    else if stream[0] == NEWLINE then 1
    else 1 + Cut(stream[1..], length - 1)
  }

  function Lines(stream: seq<Byte>, length: nat): seq<seq<Byte>>
    requires length >= 2
  {
    if stream == [] then [] else
      var k := Cut(stream, length);
      [stream[..k]] + Lines(stream[k..], length)
  }

  lemma LinesAppend(lines: seq<seq<Byte>>, stream: seq<Byte>, l: seq<Byte>, rest: seq<Byte>, length: nat)
    requires length >= 2 && stream == l + rest && |l| == Cut(stream, length) > 0
    ensures lines + Lines(stream, length) == (lines + [l]) + Lines(rest, length)
  {
    assert stream[..|l|] == l && stream[|l|..] == rest;
  }

  lemma LinesEnd(length: nat)
    requires length >= 2
    ensures Lines([], length) == [] && Cut([], length) == 0
  {}

  function Flatten(lines: seq<seq<Byte>>): seq<Byte>
  {
    if lines == [] then [] else lines[0] + Flatten(lines[1..])
  }

  /** A line that is not the last one ends in a newline or is full. */
  ghost predicate Complete(l: seq<Byte>, length: nat)
  {
    l != [] && (l[|l| - 1] == NEWLINE || |l| == length - 1)
  }

  /** No byte but the last one is a newline, and the line with its NUL fits. */
  ghost predicate Line(l: seq<Byte>, length: nat)
  {
    l != [] && |l| < length && forall i :: 0 <= i < |l| - 1 ==> l[i] != NEWLINE
  }

  /** Lines in this sense, complete up to the last one. */
  ghost predicate Split(lines: seq<seq<Byte>>, length: nat)
  {
    && (forall i :: 0 <= i < |lines| ==> Line(lines[i], length))
    && forall i :: 0 <= i < |lines| - 1 ==> Complete(lines[i], length)
  }

  lemma {:induction false} CutIsLine(stream: seq<Byte>, length: nat)
    requires stream != [] && length >= 2
    ensures Line(stream[..Cut(stream, length)], length)
    ensures Cut(stream, length) < |stream| ==> Complete(stream[..Cut(stream, length)], length)
  {
    var k := Cut(stream, length);
    if stream[0] != NEWLINE && length > 2 && |stream| > 1 {
      CutIsLine(stream[1..], length - 1);
      assert stream[..k] == [stream[0]] + stream[1..][..k - 1];
    } else {
      assert k == 1;
    }
  }

  /** The line at the front of a stream is determined by being a line that cannot be longer. */
  lemma {:induction false} CutUnique(l: seq<Byte>, rest: seq<Byte>, length: nat)
    requires length >= 2 && Line(l, length) && (Complete(l, length) || rest == [])
    ensures Cut(l + rest, length) == |l|
  {
    var s := l + rest;
    if |l| == 1 {
      if l[0] != NEWLINE && length > 2 {
        assert s[1..] == [];
      }
    } else {
      assert l[0] != NEWLINE && s[1..] == l[1..] + rest;
      assert forall i :: 0 <= i < |l[1..]| ==> l[1..][i] == l[i + 1];
      CutUnique(l[1..], rest, length - 1);
    }
  }

  /** Splitting loses and repeats nothing. */
  lemma {:induction false} LinesSplit(stream: seq<Byte>, length: nat)
    requires length >= 2
    ensures Flatten(Lines(stream, length)) == stream && Split(Lines(stream, length), length)
  {
    if stream != [] {
      var k := Cut(stream, length);
      CutIsLine(stream, length);
      LinesSplit(stream[k..], length);
      assert stream == stream[..k] + stream[k..];
    }
  }

  /** There is no other way to split a stream into such lines. */
  lemma {:induction false} LinesUnique(lines: seq<seq<Byte>>, length: nat)
    requires length >= 2 && Split(lines, length)
    ensures Lines(Flatten(lines), length) == lines
  {
    if lines != [] {
      var l, rest := lines[0], lines[1..];
      var s := Flatten(lines);
      assert forall i :: 0 <= i < |rest| ==> rest[i] == lines[i + 1];
      LinesUnique(rest, length);
      assert Line(l, length) && (Complete(l, length) || rest == []);
      CutUnique(l, Flatten(rest), length);
      assert s[..|l|] == l && s[|l|..] == Flatten(rest);
    }
  }

  /** Where read_line stores the NUL; at the end of input it stores none. */
  function NulAt(stream: seq<Byte>, length: nat): int
  {
    if length >= 2 && stream == [] then -1 else Cut(stream, length)
  }

  /** The NUL is inside the caller's buffer exactly when the caller's length is not zero, and right after every line. */
  lemma NulInBounds(length: nat)
    ensures (forall stream :: NulAt(stream, length) < length) <==> length >= 1
    ensures forall stream :: Cut(stream, length) > 0 ==> NulAt(stream, length) == Cut(stream, length)
    ensures forall stream :: NulAt(stream, length) == -1 <==> stream == [] && length >= 2
  {
    if length == 0 {
      assert NulAt([], length) == 0;
    }
  }

  lemma DropFront(front: seq<Byte>, tail: seq<Byte>, c: nat)
    requires c <= |front|
    ensures (front + tail)[c..] == front[c..] + tail && (front + tail)[..c] == front[..c]
  {}

  /** taken has come off the front of the stream, and its line goes on into rest. */
  ghost predicate Taking(stream: seq<Byte>, taken: seq<Byte>, rest: seq<Byte>, length: nat)
  {
    stream == taken + rest && |taken| < length && Cut(stream, length) == |taken| + Cut(rest, length - |taken|)
  }

  lemma TakingBegins(stream: seq<Byte>, length: nat)
    requires length >= 1
    ensures Taking(stream, [], stream, length)
  {}

  lemma TakingStep(stream: seq<Byte>, taken: seq<Byte>, c: Byte, rest: seq<Byte>, length: nat)
    requires Taking(stream, taken, [c] + rest, length) && |taken| + 1 < length
    ensures stream == (taken + [c]) + rest
    ensures if c == NEWLINE then Cut(stream, length) == |taken| + 1 else Taking(stream, taken + [c], rest, length)
  {
    CutNext(c, rest, length - |taken|);
    hide Cut;
    assert taken + ([c] + rest) == (taken + [c]) + rest;
  }

  lemma CutNext(c: Byte, rest: seq<Byte>, length: nat)
    requires length >= 2
    ensures Cut([c] + rest, length) == if c == NEWLINE then 1 else 1 + Cut(rest, length - 1)
  {
    assert ([c] + rest)[1..] == rest;
  }

  lemma TakingEnds(stream: seq<Byte>, taken: seq<Byte>, rest: seq<Byte>, length: nat)
    requires Taking(stream, taken, rest, length)
    ensures stream == taken + rest
    ensures rest == [] || |taken| == length - 1 ==> Cut(stream, length) == |taken|
  {}

  /** The descriptor with the static buffer of read_from_buf; bptr is an index into it. */
  class Reader {
    const buffer: array<Byte>
    var cnt: int
    var bptr: nat
    var script: seq<Event>

    ghost predicate Valid()
      reads this
    {
      buffer.Length == MAXBUFFER && (cnt > 0 ==> bptr + cnt <= MAXBUFFER) && ScriptOk(script)
    }

    /** Everything not yet handed out: what is left in the buffer, then what is still to be read. */
    ghost function Remaining(): seq<Byte>
      requires Valid()
      reads this, buffer
    {
      (if cnt > 0 then buffer[bptr..bptr + cnt] else []) + Bytes(script)
    }

    constructor (script: seq<Event>)
      requires ScriptOk(script)
      ensures Valid() && Remaining() == Bytes(script) && this.script == script && fresh(buffer)
    {
      buffer := new Byte[MAXBUFFER];
      cnt, bptr := 0, 0;
      this.script := script;
    }

    /** read(fd, buffer, MAXBUFFER); interrupted tells EINTR. */
    method Read() returns (n: int, interrupted: bool)
      requires Valid() && cnt <= 0
      modifies this`script, buffer
      ensures cnt <= 0 && ScriptOk(script)
      ensures old(script) == [] ==> n == 0 && script == []
      ensures old(script) != [] ==> script == old(script)[1..]
      ensures old(script) != [] && old(script)[0].Data? ==>
                n == |old(script)[0].bytes| && 0 < n <= MAXBUFFER && buffer[..n] == old(script)[0].bytes
      ensures old(script) != [] && !old(script)[0].Data? ==> n == -1 && interrupted == old(script)[0].Interrupted?
    {
      if script == [] {
        return 0, false;
      }
      var event := script[0];
      script := script[1..];
      match event {
        case Data(bytes) =>
          forall i | 0 <= i < |bytes| {
            buffer[i] := bytes[i];
          }
          return |bytes|, false;
        case Interrupted => return -1, true;
        case Failed => return -1, false;
      }
    }

    /** The loop of read_from_buf: result is positive when bytes are buffered, else what read_from_buf returns. */
    method FillBuffer() returns (result: int)
      requires Valid()
      modifies this, buffer
      ensures Valid() && (result == 1 <==> cnt > 0) && -1 <= result <= 1
      ensures NoFailure(old(script)) ==> NoFailure(script) && Remaining() == old(Remaining()) && result >= 0
      ensures NoFailure(old(script)) && result == 0 ==> Remaining() == []
    {
      while cnt <= 0
        invariant Valid()
        invariant NoFailure(old(script)) ==> NoFailure(script) && Remaining() == old(Remaining())
        decreases |script|, if cnt > 0 then 0 else 1
      {
        var n, interrupted := Read();
        cnt := n;
        if cnt < 0 {
          if !interrupted {
            return -1;
          }
        } else if cnt == 0 {
          return 0;
        } else {
          bptr := 0;
        }
      }
      return 1;
    }

    method ReadFromBuf(sc: array<Byte>, at: nat, n: nat) returns (c: int)
      requires Valid() && sc != buffer && at + n <= sc.Length && n >= 1
      modifies this, buffer, sc
      ensures Valid() && -1 <= c <= n && (c == -1 ==> !NoFailure(old(script)))
      ensures NoFailure(old(script)) ==>
              NoFailure(script) && c <= |old(Remaining())| && (c == 0 <==> old(Remaining()) == [])
      ensures NoFailure(old(script)) ==> Remaining() == old(Remaining())[c..]
      ensures NoFailure(old(script)) ==> sc[at..at + c] == old(Remaining())[..c]
      ensures forall i :: 0 <= i < sc.Length && !(at <= i < at + c) ==> sc[i] == old(sc[i])
    {
      var result := FillBuffer();
      if result != 1 {
        return result;
      }
      c := n;
      if cnt < n {
        c := cnt;
      }
      DropFront(buffer[bptr..bptr + cnt], Bytes(script), c);
      assert buffer[bptr..bptr + cnt][c..] == buffer[bptr + c..bptr + cnt] &&
             buffer[bptr..bptr + cnt][..c] == buffer[bptr..bptr + c];
      hide Bytes, NoFailure, ScriptOk;
      CopyOut(sc, at, c);
      bptr := bptr + c;
      cnt := cnt - c;
    }

    /** memcpy(sc, *bptr, c) */
    method CopyOut(sc: array<Byte>, at: nat, c: nat)
      requires sc != buffer && at + c <= sc.Length && bptr + c <= buffer.Length
      modifies sc
      ensures sc[at..at + c] == buffer[bptr..bptr + c]
      ensures forall i :: 0 <= i < sc.Length && !(at <= i < at + c) ==> sc[i] == old(sc[i])
    {
      forall i | 0 <= i < c {
        sc[at + i] := buffer[bptr + i];
      }
      ghost var to, from := sc[at..at + c], buffer[bptr..bptr + c];
      forall i | 0 <= i < c ensures to[i] == from[i] {
        assert sc[at + i] == buffer[bptr + i];
      }
    }

    /** read_from_buf(..., &c, 1) */
    method ReadByte() returns (rc: int, c: Byte)
      requires Valid()
      modifies this, buffer
      ensures Valid() && -1 <= rc <= 1 && (rc == -1 ==> !NoFailure(old(script)))
      ensures NoFailure(old(script)) ==> NoFailure(script) && (rc == 0 <==> old(Remaining()) == [])
      ensures NoFailure(old(script)) && rc == 0 ==> Remaining() == []
      ensures NoFailure(old(script)) && rc == 1 ==> old(Remaining()) == [c] + Remaining()
    {
      var cell := new Byte[1];
      rc := ReadFromBuf(cell, 0, 1);
      c := cell[0];
      assert rc == 1 ==> cell[0..1] == [c];
    }

    /** One turn of read_line's loop: a byte is read and stored. */
    method TakeByte(sc: array<Byte>, at: nat, ghost ok: bool, ghost stream: seq<Byte>, length: nat)
      returns (rc: int, c: Byte)
      requires Valid() && sc != buffer && at + 1 < length <= sc.Length
      requires ok ==> NoFailure(script) && Taking(stream, sc[..at], Remaining(), length)
      modifies this, buffer, sc
      ensures Valid() && -1 <= rc <= 1 && (rc == -1 ==> !NoFailure(old(script))) && (ok ==> NoFailure(script))
      ensures sc[..] == if rc == 1 then old(sc[..])[at := c] else old(sc[..])
      ensures ok ==> (rc == 0 <==> old(Remaining()) == [])
      ensures ok && rc == 0 ==> stream == sc[..at] + Remaining() && Cut(stream, length) == at
      ensures ok && rc == 1 ==> stream == sc[..at + 1] + Remaining()
      ensures ok && rc == 1 ==>
              if c == NEWLINE then Cut(stream, length) == at + 1 else Taking(stream, sc[..at + 1], Remaining(), length)
    {
      hide NoFailure, Cut, Bytes, Valid, Taking, Remaining;
      ghost var rest, had := Remaining(), sc[..at];
      if ok {
        TakingEnds(stream, had, rest, length);
      }
      rc, c := ReadByte();
      if rc == 1 {
        if ok {
          TakingStep(stream, had, c, Remaining(), length);
        }
        sc[at] := c;
        assert sc[..at + 1] == had + [c];
      }
    }

    /** The loop of read_line: 1 when a line is stored, 0 at the end of input, -1 on an error. */
    method TakeLine(sc: array<Byte>, length: nat) returns (status: int, bufp: nat)
      requires Valid() && sc != buffer && 1 <= length <= sc.Length
      modifies this, buffer, sc
      ensures Valid() && bufp < length && -1 <= status <= 1 && (status == -1 ==> !NoFailure(old(script)))
      ensures NoFailure(old(script)) ==> NoFailure(script) && bufp == Cut(old(Remaining()), length)
      ensures NoFailure(old(script)) ==> old(Remaining()) == sc[..bufp] + Remaining()
      ensures NoFailure(old(script)) ==> (status == 0 <==> length >= 2 && old(Remaining()) == [])
      ensures forall i :: bufp <= i < sc.Length ==> sc[i] == old(sc[i])
    {
      var n := 1;
      bufp := 0;
      ghost var ok, stream := NoFailure(script), Remaining();
      hide NoFailure, Cut, Bytes, Valid, Taking, Remaining;
      TakingBegins(stream, length);
      while n < length
        invariant Valid() && 1 <= n <= length && bufp == n - 1
        invariant ok ==> NoFailure(script) && Taking(stream, sc[..bufp], Remaining(), length)
        invariant forall i :: bufp <= i < sc.Length ==> sc[i] == old(sc[i])
      {
        var rc, c := TakeByte(sc, bufp, ok, stream, length);
        if rc == 1 {
          bufp := bufp + 1;
          if c == NEWLINE {
            return 1, bufp;
          }
        } else if rc == 0 {
          if n == 1 {
            return 0, bufp;
          } else {
            return 1, bufp;
          }
        } else {
          return -1, bufp;
        }
        n := n + 1;
      }
      if ok {
        TakingEnds(stream, sc[..bufp], Remaining(), length);
      }
      return 1, bufp;
    }

    /** read_line; sc is the caller's buffer, which the source trusts to hold length bytes. */
    method ReadLine(sc: array<Byte>, length: nat) returns (r: nat)
      requires Valid() && sc != buffer && length <= sc.Length && sc.Length >= 1
      modifies this, buffer, sc
      ensures Valid() && (r < length || r == 0 || r == MINUS_ONE)
      ensures NoFailure(old(script)) ==> NoFailure(script) && r == Cut(old(Remaining()), length)
      ensures NoFailure(old(script)) ==> old(Remaining()) == sc[..r] + Remaining()
      ensures NoFailure(old(script)) ==>
                var z := NulAt(old(Remaining()), length);
                z < sc.Length && (z >= 0 ==> z == r && sc[z] == NUL) &&
                forall i :: r <= i < sc.Length && i != z ==> sc[i] == old(sc[i])
    {
      if length == 0 {
        sc[0] := NUL;
        return 0;
      }
      var status, bufp := TakeLine(sc, length);
      if status == 0 {
        return 0;
      }
      if status == -1 {
        return MINUS_ONE;
      }
      sc[bufp] := NUL;
      return bufp;
    }
  }

  /**
   The server's loop: calls read_line until it returns 0. Whatever the pieces in which the input arrived and however
   often read was interrupted, the lines are those of the whole input.
   */
  method ReadAll(reader: Reader, length: nat) returns (lines: seq<seq<Byte>>)
    requires reader.Valid() && NoFailure(reader.script) && length >= 2
    modifies reader, reader.buffer
    ensures lines == Lines(old(reader.Remaining()), length)
    ensures Flatten(lines) == old(reader.Remaining())
  {
    ghost var stream := reader.Remaining();
    LinesSplit(stream, length);
    lines := [];
    var sc := new Byte[length];
    hide NoFailure, Cut, Bytes, Lines, Reader.Remaining, Reader.Valid;
    LinesEnd(length);
    while true
      invariant reader.Valid() && NoFailure(reader.script) && fresh(sc)
      invariant Lines(stream, length) == lines + Lines(reader.Remaining(), length)
      decreases |reader.Remaining()|
    {
      ghost var rest := reader.Remaining();
      var r := reader.ReadLine(sc, length);
      if r == 0 {
        return;
      }
      LinesAppend(lines, rest, sc[..r], reader.Remaining(), length);
      lines := lines + [sc[..r]];
    }
  }
}
