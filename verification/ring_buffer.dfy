/** The fixed-size ring: one writer that never waits, any number of readers with their own cursor.
    It is a window on an unbounded stream; positions in the stream are absolute. */
module Ring {
  import opened Text
  import opened Buffers

  // ---------- arithmetic of laps ----------

  lemma AtLeast(d: int, m: nat)
    requires 0 < m
    ensures d >= 1 ==> d * m >= m
    ensures d <= -1 ==> d * m <= 0 - m
    ensures d >= 0 ==> d * m >= 0
  {
  }

  lemma ModIs(x: nat, m: nat, q: int, r: nat)
    requires r < m && x == q * m + r
    ensures x % m == r && x / m == q
  {
    var d := q - x / m;
    assert d * m == x % m - r;
    AtLeast(d, m);
  }

  lemma Split(x: nat, m: nat)
    requires 0 < m
    ensures x == x / m * m + x % m && x / m >= 0
  {
  }

  /** A lap further is a multiple of the capacity again, and so is a lap back. */
  lemma NextLap(base: nat, m: nat)
    requires 0 < m && base % m == 0
    ensures (base + m) % m == 0
    ensures base > 0 ==> base >= m && (base - m) % m == 0
  {
    Split(base, m);
    ModIs(base + m, m, base / m + 1, 0);
    if base > 0 {
      AtLeast(base / m, m);
      ModIs(base - m, m, base / m - 1, 0);
    }
  }

  lemma OffsetIs(base: nat, offset: nat, m: nat)
    requires 0 < m && base % m == 0 && offset <= m
    ensures (base + offset) % m == if offset < m then offset else 0
  {
    Split(base, m);
    if offset < m { ModIs(base + offset, m, base / m, offset); } else { NextLap(base, m); }
  }

  /** How far a reader at `pos` lags, counted within the ring. */
  lemma LagIs(base: nat, w: nat, pos: nat, m: nat)
    requires w < m && base % m == 0 && pos <= base + w
    ensures (base + w - pos) % m == if w >= pos % m then w - pos % m else m - pos % m + w
    ensures pos % m > w ==> base >= m
  {
    var q, r, laps := pos / m, pos % m, base / m;
    Split(pos, m);
    Split(base, m);
    if w >= r {
      ModIs(base + w - pos, m, laps - q, w - r);
    } else {
      AtLeast(q - laps, m);
      assert (q - laps) * m == q * m - laps * m;
      AtLeast(laps, m);
      ModIs(base + w - pos, m, laps - q - 1, m - r + w);
    }
  }

  /** The stream position a read starts from: the reader's own position when it lags less than the
      capacity, else the first later one with the same place in the ring that still holds data. */
  function ReadFrom(written: nat, pos: nat, capacity: nat): (start: nat)
    requires 0 < capacity && pos <= written
    ensures pos <= start <= written && written - start < capacity
    ensures start == pos <==> written - pos < capacity
  {
    LagMod(written - pos, capacity);
    written - (written - pos) % capacity
  }

  lemma LagMod(lag: nat, m: nat)
    requires 0 < m
    ensures 0 <= lag % m <= lag && lag % m < m && (lag % m == lag <==> lag < m)
  {
  }

  lemma FullLap(lag: nat, m: nat)
    requires 0 < m
    ensures lag == m ==> lag % m == 0
  {
    if lag == m { ModIs(m, m, 1, 0); }
  }

  /** Stream byte `pos` is gone: a later byte took its place in the ring. */
  ghost predicate Overwritten(written: nat, pos: nat, capacity: nat)
    requires 0 < capacity
  {
    exists q: nat :: pos < q < written && q % capacity == pos % capacity
  }

  /** That is so exactly when the writer is more than a whole lap ahead. */
  lemma OverwrittenExactly(written: nat, pos: nat, capacity: nat)
    requires 0 < capacity
    ensures Overwritten(written, pos, capacity) <==> written > pos + capacity
  {
    if written > pos + capacity {
      Split(pos, capacity);
      ModIs(pos + capacity, capacity, pos / capacity + 1, pos % capacity);
      assert pos < pos + capacity < written;
    }
    forall q: nat | pos < q < written && q % capacity == pos % capacity ensures q >= pos + capacity {
      Split(pos, capacity);
      Split(q, capacity);
      var laps := q / capacity - pos / capacity;
      assert laps * capacity == q - pos;
      AtLeast(laps, capacity);
    }
  }

  /** The promise that a read of overwritten data returns nothing holds exactly when nothing was asked
      for, or the reader lags by whole laps. And then it may return nothing although all is still there. */
  lemma PromiseAtOverrun(written: nat, pos: nat, len: nat, capacity: nat)
    requires 0 < capacity && Overwritten(written, pos, capacity)
    ensures pos <= written
    ensures Min(len, (written - pos) % capacity) == 0 <==> len == 0 || (written - pos) % capacity == 0
    ensures Min(len, capacity % capacity) == 0 && !Overwritten(pos + capacity, pos, capacity)
  {
    OverwrittenExactly(written, pos, capacity);
    OverwrittenExactly(pos + capacity, pos, capacity);
    FullLap(capacity, capacity);
  }

  /** Every cell holds the newest byte of the stream whose place it is: of the lap that began at
      `base` in front of the write offset `w`, of the lap before behind it. */
  ghost predicate Holds(cells: Bytes, stream: Bytes, base: nat, w: nat) {
    && |stream| == base + w && w <= |cells|
    && (forall i :: 0 <= i < w ==> cells[i] == stream[base + i])
    && (base > 0 ==> base >= |cells| && forall i :: w <= i < |cells| ==> cells[i] == stream[base - |cells| + i])
  }

  /** `bytes` copied over the cells from `at` on. */
  function Stored(cells: Bytes, at: nat, bytes: Bytes): Bytes
    requires at + |bytes| <= |cells|
  {
    cells[..at] + bytes + cells[at + |bytes|..]
  }

  lemma StoredAhead(cells: Bytes, stream: Bytes, base: nat, w: nat, data: Bytes)
    requires Holds(cells, stream, base, w) && w + |data| <= |cells|
    ensures Holds(Stored(cells, w, data), stream + data, base, w + |data|)
  {
  }

  /** A full lap is the same as an empty one that follows it. */
  lemma LapTurns(cells: Bytes, stream: Bytes, base: nat)
    requires Holds(cells, stream, base, |cells|)
    ensures Holds(cells, stream, base + |cells|, 0)
  {
  }

  lemma LengthIs(cells: Bytes, stream: Bytes, base: nat, w: nat)
    requires Holds(cells, stream, base, w)
    ensures |stream| == base + w && (base > 0 ==> base >= |cells|)
  {
  }

  /** How much a reader with this offset can get before it meets the write offset. */
  function Available(capacity: nat, w: nat, offset: nat): nat
    requires w < capacity && offset < capacity
  {
    if w >= offset then w - offset else (capacity - offset) + w
  }

  /** `n` cells from `offset` on, around the end. */
  function Around(cells: Bytes, offset: nat, n: nat): Bytes
    requires offset <= |cells| && n <= |cells|
  {
    if offset + n <= |cells| then cells[offset..offset + n] else cells[offset..] + cells[..offset + n - |cells|]
  }

  lemma AroundIsStream(cells: Bytes, stream: Bytes, base: nat, w: nat, offset: nat, n: nat)
    requires Holds(cells, stream, base, w) && w < |cells| && offset < |cells| && (offset > w ==> base > 0)
    requires n <= Available(|cells|, w, offset)
    ensures var start := |stream| - Available(|cells|, w, offset);
            0 <= start && Around(cells, offset, n) == stream[start..start + n]
  {
  }

  /** A read at a cursor, in terms of the stream. */
  lemma ReadIs(cells: Bytes, stream: Bytes, base: nat, w: nat, pos: nat, len: nat)
    requires Holds(cells, stream, base, w) && w < |cells| && base % |cells| == 0 && pos <= |stream|
    ensures var m := |cells|;
            var offset := pos % m;
            var available := Available(m, w, offset);
            var n, start := Min(len, available), ReadFrom(|stream|, pos, m);
            && available == (|stream| - pos) % m && start + n <= |stream|
            && Around(cells, offset, n) == stream[start..start + n]
            && (start + n) % m == (if offset + n < m then offset + n else offset + n - m)
    ensures |stream| - pos == |cells| ==> (|stream| - pos) % |cells| == 0
  {
    hide Holds, Around;
    var m := |cells|;
    FullLap(|stream| - pos, m);
    LengthIs(cells, stream, base, w);
    LagIs(base, w, pos, m);
    var n := Min(len, Available(m, w, pos % m));
    AroundIsStream(cells, stream, base, w, pos % m, n);
    NextOffset(base, w, pos % m, n, m);
  }

  class RingBuffer {
    const capacity: nat
    const buffer: array<Byte>
    var writeOffset: nat
    ghost var stream: Bytes
    ghost var base: nat

    /** `base` is where in the stream the current lap began. */
    ghost predicate Valid()
      reads this, buffer
    {
      && 0 < capacity && buffer.Length == capacity && writeOffset < capacity && base % capacity == 0
      && Holds(buffer[..], stream, base, writeOffset)
    }

    constructor (size: nat)
      requires 0 < size
      ensures Valid() && fresh(buffer) && capacity == size && stream == []
    {
      capacity := size;
      buffer := new Byte[size](_ => 0 as char);
      writeOffset := 0;
      stream, base := [], 0;
    }

    /** Cell `p mod capacity` holds stream byte `p`, for each of the last `capacity` positions. */
    lemma CellHoldsNewest(p: nat)
      requires Valid() && p < |stream| && |stream| <= p + capacity
      ensures buffer[p % capacity] == stream[p]
    {
      if p >= base {
        OffsetIs(base, p - base, capacity);
      } else {
        NextLap(base, capacity);
        OffsetIs(base - capacity, p - (base - capacity), capacity);
      }
    }

    method Store(at: nat, bytes: Bytes)
      requires at + |bytes| <= buffer.Length
      modifies buffer
      ensures buffer[..] == Stored(old(buffer[..]), at, bytes)
    {
      forall i | 0 <= i < |bytes| { buffer[at + i] := bytes[i]; }
    }

    /** A write as large as the ring is refused; any other is taken, whoever has not read yet. */
    method Write(data: Bytes) returns (ok: bool)
      requires Valid()
      modifies this, buffer
      ensures Valid()
      ensures ok <==> |data| < capacity
      ensures stream == if ok then old(stream) + data else old(stream)
    {
      hide Holds, Stored;
      if |data| >= capacity { return false; }
      NextLap(base, capacity);
      ghost var cells := buffer[..];
      var newOffset := writeOffset + |data|;
      if newOffset > capacity {
        var tail := capacity - writeOffset;
        StoredAhead(cells, stream, base, writeOffset, data[..tail]);
        Store(writeOffset, data[..tail]);
        LapTurns(buffer[..], stream + data[..tail], base);
        StoredAhead(buffer[..], stream + data[..tail], base + capacity, 0, data[tail..]);
        Store(0, data[tail..]);
        OffsetIs(0, |data| - tail, capacity);
        writeOffset := (|data| - tail) % capacity;
        assert stream + data[..tail] + data[tail..] == stream + data;
      } else {
        StoredAhead(cells, stream, base, writeOffset, data);
        Store(writeOffset, data);
        if newOffset == capacity { LapTurns(buffer[..], stream + data, base); }
        writeOffset := if newOffset == capacity then 0 else newOffset;
      }
      stream := stream + data;
      if newOffset >= capacity { base := base + capacity; }
      return true;
    }

    /** Reads at a cursor. `pos` is where the reader stands in the stream. The bytes are exactly the
        stream from `ReadFrom` on: the reader's next bytes while it lags less than the capacity,
        and otherwise whole laps are skipped without notice. */
    method Read(offset: nat, len: nat, ghost pos: nat) returns (data: Bytes, next: nat)
      requires Valid() && pos <= |stream| && offset == pos % capacity
      ensures |data| == Min(len, (|stream| - pos) % capacity)
      ensures ReadFrom(|stream|, pos, capacity) + |data| <= |stream|
      ensures data == stream[ReadFrom(|stream|, pos, capacity)..ReadFrom(|stream|, pos, capacity) + |data|]
      ensures next == (ReadFrom(|stream|, pos, capacity) + |data|) % capacity
      ensures Overwritten(|stream|, pos, capacity) ==> (data == [] <==> len == 0 || (|stream| - pos) % capacity == 0)
      ensures |stream| - pos == capacity ==> data == []
    {
      ReadIs(buffer[..], stream, base, writeOffset, pos, len);
      OverwrittenExactly(|stream|, pos, capacity);
      hide Holds, Overwritten, ReadFrom, Available;
      var available := Available(capacity, writeOffset, offset);
      var n := Min(len, available);
      if n == 0 { return [], offset; }
      if offset + n <= capacity {
        data := buffer[offset..offset + n];
        next := offset + n;
        if next == capacity { next := 0; }
      } else {
        var tail := capacity - offset;
        data := buffer[offset..] + buffer[..n - tail];
        next := n - tail;
      }
    }
  }

  /** Four cells, five bytes written: byte 0 is overwritten, and a reader that asks for it gets byte 4. */
  method OverrunReturnsBytes() returns (data: Bytes)
    ensures data == "e"
    ensures Overwritten(5, 0, 4)
  {
    var ring := new RingBuffer(4);
    var first := ring.Write("abc");
    var second := ring.Write("de");
    OverwrittenExactly(5, 0, 4);
    assert ring.stream == "abc" + "de" == "abcde";
    var next;
    data, next := ring.Read(0, 10, 0);
  }

  /** Four cells, four bytes written: none is overwritten, and a reader that asks for them gets none. */
  method FullRingReturnsNothing() returns (data: Bytes)
    ensures data == []
    ensures forall p: nat :: p < 4 ==> !Overwritten(4, p, 4)
  {
    var ring := new RingBuffer(4);
    var first := ring.Write("abc");
    var second := ring.Write("d");
    forall p: nat | p < 4 ensures !Overwritten(4, p, 4) { OverwrittenExactly(4, p, 4); }
    var next;
    data, next := ring.Read(0, 10, 0);
  }

  lemma NextOffset(base: nat, w: nat, offset: nat, n: nat, m: nat)
    requires w < m && offset < m && base % m == 0 && (offset > w ==> base >= m)
    requires n <= Available(m, w, offset)
    ensures (base + w - Available(m, w, offset) + n) % m
         == if offset + n < m then offset + n else offset + n - m
  {
    NextLap(base, m);
    if w >= offset {
      OffsetIs(base, offset + n, m);
    } else if offset + n <= m {
      OffsetIs(base - m, offset + n, m);
    } else {
      OffsetIs(base, offset + n - m, m);
    }
  }

  // ---------- many readers over a whole run ----------

  /** A reader: where it joined, where it stands, what it has been given, and how much of the
      stream it never saw. */
  datatype Reader = Reader(joined: nat, pos: nat, got: Bytes, missed: nat)

  datatype State = State(capacity: nat, stream: Bytes, readers: map<nat, Reader>)

  datatype Step = Write(data: Bytes) | Join(id: nat, pos: nat) | Read(id: nat, len: nat)

  function Next(s: State, step: Step): State
    requires 0 < s.capacity && Consistent(s)
  {
    match step
    case Write(data) => if |data| < s.capacity then s.(stream := s.stream + data) else s
    case Join(id, pos) =>
      var from := Min(pos, |s.stream|);
      s.(readers := s.readers[id := Reader(from, from, [], 0)])
    case Read(id, len) =>
      if id !in s.readers then s else
      var r := s.readers[id];
      var start := ReadFrom(|s.stream|, r.pos, s.capacity);
      var n := Min(len, |s.stream| - start);
      s.(readers := s.readers[id := Reader(r.joined, start + n, r.got + s.stream[start..start + n],
                                           r.missed + (start - r.pos))])
  }

  predicate Consistent(s: State) {
    forall id :: id in s.readers ==> s.readers[id].joined <= s.readers[id].pos <= |s.stream|
  }

  /** What one reader can rely on, whatever the writer and the other readers do. */
  ghost predicate ReaderOk(s: State, r: Reader)
    requires 0 < s.capacity
  {
    && r.joined <= r.pos <= |s.stream|
    && r.pos - r.joined == |r.got| + r.missed
    && r.missed % s.capacity == 0
    && (r.missed == 0 ==> r.got == s.stream[r.joined..r.pos])
  }

  ghost predicate AllOk(s: State) {
    0 < s.capacity && forall id :: id in s.readers ==> ReaderOk(s, s.readers[id])
  }

  function Run(s: State, steps: seq<Step>): State
    requires 0 < s.capacity && Consistent(s)
    decreases steps
  {
    if steps == [] then s else
    var s' := Next(s, steps[0]);
    Run(s', steps[1..])
  }

  lemma MissedLaps(missed: nat, lag: nat, m: nat)
    requires 0 < m && missed % m == 0
    ensures (missed + (lag - lag % m)) % m == 0
  {
    Split(missed, m);
    Split(lag, m);
    ModIs(missed + (lag - lag % m), m, missed / m + lag / m, 0);
  }

  lemma ReadKeepsOk(s: State, r: Reader, len: nat)
    requires 0 < s.capacity && ReaderOk(s, r)
    ensures var start := ReadFrom(|s.stream|, r.pos, s.capacity);
            var n := Min(len, |s.stream| - start);
            ReaderOk(s, Reader(r.joined, start + n, r.got + s.stream[start..start + n], r.missed + (start - r.pos)))
  {
    MissedLaps(r.missed, |s.stream| - r.pos, s.capacity);
    var start := ReadFrom(|s.stream|, r.pos, s.capacity);
    if r.missed == 0 && start == r.pos {
      var n := Min(len, |s.stream| - start);
      assert s.stream[r.joined..r.pos] + s.stream[start..start + n] == s.stream[r.joined..start + n];
    }
  }

  lemma StepKeepsOk(s: State, step: Step)
    requires AllOk(s)
    ensures AllOk(Next(s, step))
  {
    var s' := Next(s, step);
    forall id | id in s'.readers ensures ReaderOk(s', s'.readers[id]) {
      match step {
        case Write(data) =>
          var r := s.readers[id];
          assert s'.stream[r.joined..r.pos] == s.stream[r.joined..r.pos];
        case Join(j, _) => if id != j { assert ReaderOk(s, s.readers[id]); }
        case Read(j, len) =>
          assert ReaderOk(s, s.readers[id]);
          if id == j { ReadKeepsOk(s, s.readers[id], len); }
      }
    }
  }

  /** In every run, with any number of readers: a reader misses whole laps or nothing, and one that
      missed nothing has received exactly the stream from where it joined to where it stands,
      without loss, repetition or reordering. */
  lemma {:induction false} ReadersSeeTheStream(s: State, steps: seq<Step>)
    requires AllOk(s)
    ensures AllOk(Run(s, steps))
    decreases steps
  {
    if steps != [] {
      StepKeepsOk(s, steps[0]);
      ReadersSeeTheStream(Next(s, steps[0]), steps[1..]);
    }
  }

  function AcceptedBy(capacity: nat, step: Step): Bytes {
    if step.Write? && |step.data| < capacity then step.data else []
  }

  /** The writes that were not refused, one after the other. */
  function Accepted(capacity: nat, steps: seq<Step>): Bytes {
    if steps == [] then [] else AcceptedBy(capacity, steps[0]) + Accepted(capacity, steps[1..])
  }

  /** Reader `id` lags less than the capacity whenever it reads. */
  ghost predicate KeepsUp(s: State, steps: seq<Step>, id: nat)
    requires AllOk(s)
    decreases steps
  {
    steps != [] ==>
      && (steps[0].Read? && steps[0].id == id && id in s.readers ==> |s.stream| - s.readers[id].pos < s.capacity)
      && AllOk(Next(s, steps[0])) && KeepsUp(Next(s, steps[0]), steps[1..], id)
  }

  lemma AllConsistent(s: State)
    requires AllOk(s)
    ensures Consistent(s)
  {
  }

  lemma StepMisses(s: State, step: Step, id: nat)
    requires AllOk(s) && (id in s.readers ==> s.readers[id].missed == 0)
    requires step.Read? && step.id == id && id in s.readers ==> |s.stream| - s.readers[id].pos < s.capacity
    ensures Consistent(s) && AllOk(Next(s, step)) && Next(s, step).capacity == s.capacity
    ensures Next(s, step).stream == s.stream + AcceptedBy(s.capacity, step)
    ensures id in Next(s, step).readers ==> Next(s, step).readers[id].missed == 0
  {
    AllConsistent(s);
    StepKeepsOk(s, step);
    hide ReaderOk, ReadFrom, Consistent;
    if step.Read? && step.id == id && id in s.readers { MissesOnlyWhenLapped(s, id, step.len); }
  }

  lemma {:induction false} NothingMissed(s: State, steps: seq<Step>, id: nat)
    requires AllOk(s) && KeepsUp(s, steps, id) && (id in s.readers ==> s.readers[id].missed == 0)
    ensures AllOk(Run(s, steps)) && Run(s, steps).stream == s.stream + Accepted(s.capacity, steps)
    ensures id in Run(s, steps).readers ==> Run(s, steps).readers[id].missed == 0
    decreases steps
  {
    AllConsistent(s);
    hide ReaderOk, ReadFrom, Consistent, Next, AcceptedBy;
    if steps == [] {
      assert s.stream + [] == s.stream;
    } else {
      StepMisses(s, steps[0], id);
      NothingMissed(Next(s, steps[0]), steps[1..], id);
    }
  }

  /** A reader that never lags a full capacity has received exactly the accepted writes from where it
      joined to where it stands, whatever the writer and the other readers do. */
  lemma FaithfulReader(capacity: nat, steps: seq<Step>, id: nat)
    requires 0 < capacity && KeepsUp(State(capacity, [], map[]), steps, id)
    ensures var end, all := Run(State(capacity, [], map[]), steps), Accepted(capacity, steps);
            id in end.readers ==>
              var r := end.readers[id];
              r.joined <= r.pos <= |all| && r.got == all[r.joined..r.pos]
  {
    var s := State(capacity, [], map[]);
    NothingMissed(s, steps, id);
    assert [] + Accepted(capacity, steps) == Accepted(capacity, steps);
    var end := Run(s, steps);
    if id in end.readers { assert ReaderOk(end, end.readers[id]); }
  }

  /** A read misses something exactly when the reader lags by the capacity or more. */
  lemma MissesOnlyWhenLapped(s: State, id: nat, len: nat)
    requires AllOk(s) && id in s.readers
    ensures Next(s, Read(id, len)).readers[id].missed == s.readers[id].missed
       <==> |s.stream| - s.readers[id].pos < s.capacity
  {
    assert ReaderOk(s, s.readers[id]);
  }
}
