/** The abstract partition log: records with their offsets, in file order. */
module LogSpec {
  import opened Wrappers

  datatype Rec<T> = Rec(offset: nat, payload: T)
  type Log<T> = seq<Rec<T>>

  function Next<T>(log: Log<T>): nat { if log == [] then 0 else log[|log| - 1].offset + 1 }

  ghost predicate Increasing<T>(log: Log<T>) { forall i, j :: 0 <= i < j < |log| ==> log[i].offset < log[j].offset }

  /** Offsets 0, 1, 2, ... */
  ghost predicate Dense<T>(log: Log<T>) { forall i :: 0 <= i < |log| ==> log[i].offset == i }

  /** One append, with the offset chosen by the log or given by the leader. */
  function Put<T>(log: Log<T>, offset: Option<int>, payload: T): Log<T> {
    match offset
    case None => log + [Rec(Next(log), payload)]
    case Some(o) => if o < Next(log) then log else log + [Rec(o, payload)]
  }

  lemma PutIncreasing<T>(log: Log<T>, offset: Option<int>, payload: T)
    requires Increasing(log)
    ensures Increasing(Put(log, offset, payload))
  {
  }

  /** Applying a stream of leader records, one explicit-offset append each. */
  function PutAll<T>(log: Log<T>, stream: seq<Rec<T>>): Log<T>
    decreases |stream|
  {
    if stream == [] then log
    else PutAll(Put(log, Some(stream[0].offset), stream[0].payload), stream[1..])
  }

  /** Every record of the stream is the leader's record at its offset. */
  ghost predicate DrawnFrom<T>(stream: seq<Rec<T>>, leader: Log<T>) {
    forall i :: 0 <= i < |stream| ==> stream[i].offset < |leader| && leader[stream[i].offset] == stream[i]
  }

  /** No record is ahead of the next offset when it arrives: new entries come in order, the rest are replays. */
  predicate NoJump<T>(next: nat, stream: seq<Rec<T>>)
    decreases |stream|
  {
    stream == [] ||
    (stream[0].offset <= next && NoJump(if stream[0].offset == next then next + 1 else next, stream[1..]))
  }

  function Highest<T>(next: nat, stream: seq<Rec<T>>): nat
    decreases |stream|
  {
    if stream == [] then next
    else Highest(if stream[0].offset >= next then stream[0].offset + 1 else next, stream[1..])
  }

  lemma {:induction false} PutAllConcat<T>(log: Log<T>, a: seq<Rec<T>>, b: seq<Rec<T>>)
    ensures PutAll(log, a + b) == PutAll(PutAll(log, a), b)
    decreases |a|
  {
    if a == [] {
      assert a + b == b;
    } else {
      assert (a + b)[1..] == a[1..] + b;
      PutAllConcat(Put(log, Some(a[0].offset), a[0].payload), a[1..], b);
    }
  }

  /** Replay idempotence: a stream that never jumps ahead leaves the leader's prefix up to its highest offset,
      however often and in whatever order it repeats earlier entries. */
  lemma {:induction false} ReplayIdempotent<T>(log: Log<T>, stream: seq<Rec<T>>, leader: Log<T>)
    requires Dense(leader) && log <= leader && DrawnFrom(stream, leader) && NoJump(|log|, stream)
    ensures var n := Highest(|log|, stream); n <= |leader| && PutAll(log, stream) == leader[..n]
    decreases |stream|
  {
    if stream == [] {
      assert log == leader[..|log|];
    } else {
      var r := stream[0];
      assert leader[r.offset] == r;
      var log' := Put(log, Some(r.offset), r.payload);
      assert log' <= leader;
      assert DrawnFrom(stream[1..], leader) by {
        forall i | 0 <= i < |stream| - 1
          ensures stream[1..][i].offset < |leader| && leader[stream[1..][i].offset] == stream[1..][i]
        {
          assert stream[1..][i] == stream[i + 1];
        }
      }
      ReplayIdempotent(log', stream[1..], leader);
    }
  }

  lemma {:induction false} GapStays<T>(log: Log<T>, stream: seq<Rec<T>>)
    requires !Dense(log)
    ensures !Dense(PutAll(log, stream))
    decreases |stream|
  {
    if stream != [] {
      var log' := Put(log, Some(stream[0].offset), stream[0].payload);
      var i :| 0 <= i < |log| && log[i].offset != i;
      assert log'[i] == log[i];
      GapStays(log', stream[1..]);
    }
  }

  /** A stream leaves a gap-free log exactly when it never jumps ahead. */
  lemma {:induction false} GapFreeExactly<T>(log: Log<T>, stream: seq<Rec<T>>)
    requires Dense(log)
    ensures Dense(PutAll(log, stream)) <==> NoJump(|log|, stream)
    decreases |stream|
  {
    if stream != [] {
      var r := stream[0];
      var log' := Put(log, Some(r.offset), r.payload);
      if r.offset > |log| {
        assert log'[|log|].offset != |log|;
        GapStays(log', stream[1..]);
      } else {
        GapFreeExactly(log', stream[1..]);
      }
    }
  }

  lemma {:induction false} PutAllGrows<T>(log: Log<T>, stream: seq<Rec<T>>)
    ensures log <= PutAll(log, stream)
    decreases |stream|
  {
    if stream != [] { PutAllGrows(Put(log, Some(stream[0].offset), stream[0].payload), stream[1..]); }
  }

  /** No record jumps ahead while some offset below n is still to come. */
  predicate NoJumpUpTo<T>(next: nat, stream: seq<Rec<T>>, n: nat)
    decreases |stream|
  {
    stream == [] || next >= n ||
    (stream[0].offset <= next && NoJumpUpTo(if stream[0].offset == next then next + 1 else next, stream[1..], n))
  }

  /** A log that got past offset n - 1 holds every offset below n exactly when no record jumped ahead before that. */
  lemma {:induction false} CompleteExactly<T>(log: Log<T>, stream: seq<Rec<T>>, n: nat)
    requires Dense(log) && Next(PutAll(log, stream)) >= n
    ensures var log' := PutAll(log, stream);
      (|log'| >= n && Dense(log'[..n])) <==> NoJumpUpTo(|log|, stream, n)
    decreases |stream|
  {
    var log' := PutAll(log, stream);
    PutAllGrows(log, stream);
    if |log| < n {
      var r := stream[0];
      var log1 := Put(log, Some(r.offset), r.payload);
      PutAllGrows(log1, stream[1..]);
      if r.offset > |log| {
        assert log'[|log|] == log1[|log|];
        assert |log'| >= n ==> log'[..n][|log|].offset != |log|;
      } else {
        CompleteExactly(log1, stream[1..], n);
      }
    }
  }
}
