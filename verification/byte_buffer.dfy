/** The growable read/write window behind every TCP connection. */
module Buffers {
  import opened Text

  function Min(a: nat, b: nat): nat { if a <= b then a else b }
  function Max(a: nat, b: nat): nat { if a >= b then a else b }

  // ---------- what a buffer is: a byte sequence, plus the memory it holds ----------

  datatype Window = Window(content: Bytes, size: nat)

  datatype Op = Append(data: Bytes) | Skip(n: nat) | Clear

  /** One operation. Reading is looking at the front, then skipping it. */
  function Apply(w: Window, op: Op): Window {
    match op
    case Append(data) => Window(w.content + data, Max(w.size, |w.content| + |data|))
    case Skip(n) => Window(w.content[Min(n, |w.content|)..], w.size)
    case Clear => Window([], w.size)
  }

  function ApplyAll(w: Window, ops: seq<Op>): Window
    decreases ops
  {
    if ops == [] then w else ApplyAll(Apply(w, ops[0]), ops[1..])
  }

  /** The largest number of readable bytes ever held on the way. */
  function Peak(w: Window, ops: seq<Op>): nat
    decreases ops
  {
    if ops == [] then |w.content| else Max(|w.content|, Peak(Apply(w, ops[0]), ops[1..]))
  }

  /** Memory is exactly what the fullest moment needed, never more. */
  lemma {:induction false} MemoryIsPeak(w: Window, ops: seq<Op>)
    requires |w.content| <= w.size
    ensures ApplyAll(w, ops).size == Max(w.size, Peak(w, ops))
    decreases ops
  {
    if ops != [] { MemoryIsPeak(Apply(w, ops[0]), ops[1..]); }
  }

  /** All bytes that came in. */
  function Appended(ops: seq<Op>): Bytes {
    if ops == [] then [] else (if ops[0].Append? then ops[0].data else []) + Appended(ops[1..])
  }

  /** How many bytes at the front of content and input together one operation takes away. */
  function Taken(w: Window, op: Op): (n: nat)
    ensures n <= |w.content|
  {
    match op
    case Append(_) => 0
    case Skip(n) => Min(n, |w.content|)
    case Clear => |w.content|
  }

  lemma StepIsSuffix(w: Window, op: Op, later: Bytes)
    ensures Apply(w, op).content + later == (w.content + (Appended([op]) + later))[Taken(w, op)..]
  {
    assert Appended([op]) == (if op.Append? then op.data else []) + Appended([op][1..]);
  }

  /** Whatever the operations, the content is the bytes that came in without a front part:
      nothing is reordered, repeated or lost from the middle. */
  lemma {:induction false} ContentIsSuffix(w: Window, ops: seq<Op>) returns (taken: nat)
    ensures taken <= |w.content + Appended(ops)|
    ensures ApplyAll(w, ops).content == (w.content + Appended(ops))[taken..]
    decreases ops
  {
    if ops == [] {
      taken := 0;
      assert (w.content + [])[0..] == w.content;
    } else {
      var later := Appended(ops[1..]);
      assert Appended(ops) == Appended([ops[0]]) + later by { assert [ops[0]][1..] == []; }
      var rest := ContentIsSuffix(Apply(w, ops[0]), ops[1..]);
      StepIsSuffix(w, ops[0], later);
      taken := Taken(w, ops[0]) + rest;
      assert (w.content + Appended(ops))[Taken(w, ops[0])..][rest..] == (w.content + Appended(ops))[taken..];
    }
  }

  // ---------- the buffer itself ----------

  class ByteBuffer {
    var data: array<Byte>
    var readPos: nat
    var writePos: nat

    /** No position ever leaves the storage. */
    ghost predicate InBounds()
      reads this
    {
      readPos <= writePos <= data.Length
    }

    /** Between calls the unread bytes start at the front of the storage. */
    ghost predicate Valid()
      reads this
    {
      InBounds() && readPos == 0
    }

    function Content(): Bytes
      requires InBounds()
      reads this, data
    {
      data[readPos..writePos]
    }

    function View(): Window
      requires InBounds()
      reads this, data
    {
      Window(Content(), data.Length)
    }

    constructor (capacity: nat)
      ensures Valid() && fresh(data) && View() == Window([], capacity)
    {
      data := new Byte[capacity](_ => 0 as char);
      readPos, writePos := 0, 0;
    }

    method Readable() returns (n: nat)
      requires InBounds()
      ensures n == |Content()|
    {
      n := writePos - readPos;
    }

    /** The byte at `i` behind the read position. */
    method PeekAt(i: nat) returns (c: Byte)
      requires InBounds() && i < |Content()|
      ensures c == Content()[i]
    {
      c := data[readPos + i];
    }

    method Compact()
      requires InBounds()
      modifies this, data
      ensures Valid() && data == old(data)
      ensures Content() == old(Content())
    {
      if readPos == 0 { return; }
      if readPos == writePos {
        readPos, writePos := 0, 0;
        return;
      }
      var r := writePos - readPos;
      forall i | 0 <= i < r { data[i] := data[readPos + i]; }
      readPos, writePos := 0, r;
    }

    method Skip(n: nat)
      requires Valid()
      modifies this, data
      ensures Valid() && data == old(data)
      ensures View() == Apply(old(View()), Op.Skip(n))
    {
      readPos := readPos + Min(n, writePos - readPos);
      Compact();
    }

    method EnsureWritable(cap: nat)
      requires InBounds()
      modifies this, data
      ensures InBounds() && (data == old(data) || fresh(data))
      ensures readPos == 0 || readPos == old(readPos)
      ensures Content() == old(Content())
      ensures data.Length - writePos >= cap
      ensures data.Length == if old(readPos + data.Length - writePos) >= cap then old(data.Length) else old(writePos) + cap
    {
      if data.Length - writePos >= cap { return; }
      if readPos + (data.Length - writePos) >= cap {
        Compact();
        return;
      }
      var newSize := writePos + cap;
      var grown := new Byte[newSize](_ => 0 as char);
      forall i | 0 <= i < data.Length { grown[i] := data[i]; }
      data := grown;
    }

    method Append(s: Bytes)
      requires Valid()
      modifies this, data
      ensures Valid() && (data == old(data) || fresh(data))
      ensures View() == Apply(old(View()), Op.Append(s))
    {
      EnsureWritable(|s|);
      ghost var before := Content();
      forall i | 0 <= i < |s| { data[writePos + i] := s[i]; }
      writePos := writePos + |s|;
      assert data[..writePos] == before + s;
    }

    method Peek(len: nat) returns (s: Bytes)
      requires InBounds()
      ensures s == Content()[..Min(len, |Content()|)]
    {
      var n := Min(len, writePos - readPos);
      s := data[readPos..readPos + n];
    }

    method Read(len: nat) returns (s: Bytes)
      requires Valid()
      modifies this, data
      ensures Valid() && data == old(data)
      ensures s + Content() == old(Content()) && |s| == Min(len, |old(Content())|)
      ensures View() == Apply(old(View()), Op.Skip(|s|))
    {
      s := Peek(len);
      Skip(|s|);
    }

    method ClearAll()
      modifies this
      ensures Valid() && data == old(data) && View() == Window([], data.Length)
    {
      readPos, writePos := 0, 0;
    }

    /** The first place of `pattern`; unlike `Find`, nothing is found for the empty pattern. */
    method FindPattern(pattern: Bytes) returns (r: int)
      requires InBounds()
      ensures r == if pattern == [] then -1 else Find(Content(), pattern, 0)
    {
      if |pattern| == 0 || |pattern| > writePos - readPos { return -1; }
      var last := writePos - readPos - |pattern| + 1;
      var p := 0;
      while p < last
        invariant 0 <= p <= last
        invariant forall k: nat :: k < p ==> !At(Content(), pattern, k)
      {
        var piece := data[readPos + p..readPos + p + |pattern|];
        assert |piece| == |pattern| && forall k :: 0 <= k < |piece| ==> piece[k] == Content()[p + k];
        assert piece == Content()[p..p + |pattern|];
        if piece == pattern {
          FindIs(Content(), pattern, 0, p);
          return p;
        }
        p := p + 1;
      }
      FindSpec(Content(), pattern, 0);
      return -1;
    }

    /** One line without its line break; empty, and nothing taken, while none is complete. */
    method ReadLine() returns (line: Bytes)
      requires Valid()
      modifies this, data
      ensures Valid() && data == old(data)
      ensures var pos := Find(old(Content()), CRLF, 0);
              if pos < 0 then line == [] && Content() == old(Content())
              else Clean(line) && line + CRLF + Content() == old(Content())
    {
      var pos := FindPattern(CRLF);
      if pos < 0 { return []; }
      line := Peek(pos);
      ghost var before := Content();
      FindSpec(before, CRLF, 0);
      CleanBefore(before, pos);
      assert before == before[..pos] + before[pos..pos + 2] + before[pos + 2..];
      Skip(pos + 2);
    }
  }
}
