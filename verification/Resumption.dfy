/** One consumer id with one session at a time, over any number of disconnects and reconnects. */
module Resumption {
  // Each session starts from the stored offset; a record is written to the client and then committed; the connection
  // may break at any point, between the two as well. A write's drain may suspend, and a record may be published then;
  // while history is being replayed that is the only switch point, and the session has no queue yet, so such a record
  // reaches it neither way. A publish is one step: the broker has no followers whose drains could suspend it.

  import opened Wrappers
  import opened Json
  import opened LogSpec
  import opened ReplicationSpec

  /** `written` and not yet committed; `history` still to replay; `queue` once live. */
  datatype Session = Session(pending: Option<Rec<Json>>, history: Log<Json>, live: bool, queue: Log<Json>, wrote: bool)

  /** The log, the stored offset, the session, and everything ever written to the client. */
  datatype Consumer = Consumer(log: Log<Json>, stored: nat, session: Option<Session>, client: seq<Rec<Json>>)

  datatype Step =
    | Publish(payload: Json)
    | Connect
    | GoLive
    | Write
    | Commit
    | Disconnect

  function ToWrite(n: Session): Log<Json> { n.history + n.queue }

  /** A session with its next record taken to be written. */
  function Popped(n: Session): Session
    requires ToWrite(n) != []
  {
    var n' := if n.history != [] then n.(history := n.history[1..]) else n.(queue := n.queue[1..]);
    n'.(pending := Some(ToWrite(n)[0]), wrote := true)
  }

  predicate Enabled(s: Consumer, a: Step) {
    match a
    // A session has a switch point in the drain of a write, and once live also in the wait for its queue.
    case Publish(_) => s.session.Some? ==> s.session.value.live || s.session.value.pending.Some?
    case Connect => s.session.None?
    case GoLive => s.session.Some? && !s.session.value.live && s.session.value.history == []
      && s.session.value.pending.None?
    case Write => s.session.Some? && s.session.value.pending.None? && ToWrite(s.session.value) != []
    case Commit => s.session.Some? && s.session.value.pending.Some?
    case Disconnect => s.session.Some?
  }

  function Do(s: Consumer, a: Step): Consumer
    requires Enabled(s, a)
  {
    match a
    case Publish(p) =>
      var r := Rec(Next(s.log), p);
      s.(log := s.log + [r],
         session := if s.session.Some? && s.session.value.live
                    then Some(s.session.value.(queue := s.session.value.queue + [r])) else s.session)
    case Connect => s.(session := Some(Session(None, From(s.log, s.stored), false, [], false)))
    case GoLive => s.(session := Some(s.session.value.(live := true)))
    case Write =>
      var n := s.session.value;
      var r := ToWrite(n)[0];
      s.(session := Some(Popped(n)), client := s.client + [r])
    case Commit =>
      s.(stored := s.session.value.pending.value.offset + 1, session := Some(s.session.value.(pending := None)))
    case Disconnect => s.(session := None)
  }

  /** A publish before the session is live is a publish during its replay. */
  predicate DuringReplay(s: Consumer, a: Step) { a.Publish? && s.session.Some? && !s.session.value.live }

  // ----- the invariant -----

  /** The first `high` records of the log in order, each possibly repeated on the spot. */
  ghost predicate Stutters(client: seq<Rec<Json>>, log: Log<Json>, high: nat) {
    && high <= |log|
    && (if client == [] then high == 0 else client[0].offset == 0 && client[|client| - 1].offset + 1 == high)
    && (forall i :: 0 <= i < |client| ==> client[i].offset < high && client[i] == log[client[i].offset])
    && (forall i :: 0 <= i < |client| - 1 ==> client[i].offset <= client[i + 1].offset <= client[i].offset + 1)
  }

  function Uncommitted(n: Session): Log<Json> { if n.pending.Some? then [n.pending.value] else [] }

  ghost predicate SessionOk(n: Session, log: Log<Json>, stored: nat, high: nat) {
    && stored <= |log|
    && (n.live ==> n.history == []) && (!n.live ==> n.queue == [])
    && Uncommitted(n) + ToWrite(n) == log[stored..]
    && (n.pending.Some? ==> high == stored + 1)
    && (n.pending.None? && high == stored + 1 ==> !n.wrote)
  }

  /** `high` records have been written; the stored offset is at most one behind. */
  ghost predicate InvAt(s: Consumer, high: nat) {
    && Dense(s.log) && s.stored <= high <= s.stored + 1
    && Stutters(s.client, s.log, high)
    && (s.session.Some? ==> SessionOk(s.session.value, s.log, s.stored, high))
  }

  function WrittenAfter(s: Consumer, a: Step, high: nat): nat {
    if a.Write? && high == s.stored then high + 1 else high
  }

  lemma WritesStored(s: Consumer, high: nat)
    requires InvAt(s, high) && Enabled(s, Write)
    ensures var r := ToWrite(s.session.value)[0];
      s.stored < |s.log| && r == s.log[s.stored] && r.offset == s.stored
    ensures var n := Do(s, Write).session.value;
      SessionOk(n, s.log, s.stored, s.stored + 1)
  {
    hide Stutters;
    var n := s.session.value;
    assert [] + ToWrite(n) == ToWrite(n);
    assert ToWrite(n) == s.log[s.stored..];
    var n' := Do(s, Write).session.value;
    assert ToWrite(n') == ToWrite(n)[1..];
    assert [ToWrite(n)[0]] + ToWrite(n)[1..] == ToWrite(n);
  }

  lemma StuttersMore(client: seq<Rec<Json>>, log: Log<Json>, high: nat, r: Rec<Json>)
    requires Stutters(client, log, high) && Dense(log) && r.offset < |log| && r == log[r.offset]
    requires high == r.offset || high == r.offset + 1
    ensures Stutters(client + [r], log, r.offset + 1)
  {
  }

  lemma CommitOk(s: Consumer, high: nat)
    requires InvAt(s, high) && Enabled(s, Commit)
    ensures Do(s, Commit).stored == high && SessionOk(Do(s, Commit).session.value, s.log, high, high)
  {
    hide Stutters;
    var n := s.session.value;
    assert (Uncommitted(n) + ToWrite(n))[0] == n.pending.value;
    assert (Uncommitted(n) + ToWrite(n))[1..] == ToWrite(n);
    assert s.log[s.stored..][1..] == s.log[s.stored + 1..];
    assert [] + ToWrite(n) == ToWrite(n);
  }

  lemma PublishOk(s: Consumer, high: nat, p: Json)
    requires InvAt(s, high) && Enabled(s, Publish(p)) && !DuringReplay(s, Publish(p))
    ensures InvAt(Do(s, Publish(p)), high)
  {
    hide Stutters, Dense, Next, Uncommitted, ToWrite;
    var r := Rec(Next(s.log), p);
    DenseGrows(s.log, p);
    StuttersLonger(s.client, s.log, high, r);
    if s.session.Some? {
      QueueMore(s.session.value, r);
      SuffixGrows(s.log, s.stored, r);
    }
  }

  lemma SuffixGrows(log: Log<Json>, from: nat, r: Rec<Json>)
    requires from <= |log|
    ensures (log + [r])[from..] == log[from..] + [r]
  {
  }

  lemma StuttersLonger(client: seq<Rec<Json>>, log: Log<Json>, high: nat, r: Rec<Json>)
    requires Stutters(client, log, high)
    ensures Stutters(client, log + [r], high)
  {
  }

  lemma ConnectOk(s: Consumer, high: nat)
    requires InvAt(s, high) && Enabled(s, Connect)
    ensures InvAt(Do(s, Connect), high)
  {
    assert s.stored <= |s.log|;
    hide From, Stutters;
    FromDense(s.log, s.stored);
    var n := Do(s, Connect).session.value;
    assert Uncommitted(n) + ToWrite(n) == From(s.log, s.stored);
  }

  lemma WriteOk(s: Consumer, high: nat)
    requires InvAt(s, high) && Enabled(s, Write)
    ensures InvAt(Do(s, Write), WrittenAfter(s, Write, high))
  {
    WritesStored(s, high);
    StuttersMore(s.client, s.log, high, ToWrite(s.session.value)[0]);
    hide Stutters, SessionOk;
  }

  lemma StepKeeps(s: Consumer, a: Step, high: nat)
    requires InvAt(s, high) && Enabled(s, a) && !DuringReplay(s, a)
    ensures InvAt(Do(s, a), WrittenAfter(s, a, high))
  {
    hide From, Stutters, Dense;
    match a
    case Publish(p) => PublishOk(s, high, p);
    case Connect => ConnectOk(s, high);
    case Write => WriteOk(s, high);
    case Commit => CommitOk(s, high);
    case _ =>
  }

  // ----- over every run -----

  ghost predicate Reaches(s: Consumer, steps: seq<Step>, s': Consumer)
    decreases |steps|
  {
    if steps == [] then s' == s else Enabled(s, steps[0]) && Reaches(Do(s, steps[0]), steps[1..], s')
  }

  function Start(log: Log<Json>): Consumer { Consumer(log, 0, None, []) }

  ghost predicate WrittenBelow(client: seq<Rec<Json>>, log: Log<Json>, n: nat)
    requires n <= |log|
  {
    forall o :: 0 <= o < n ==> log[o] in client
  }

  /** Every record below the stored offset has been written to the client. */
  ghost predicate NoGap(s: Consumer)
    requires s.stored <= |s.log|
  {
    WrittenBelow(s.client, s.log, s.stored)
  }

  /** A commit of a record other than the next one to commit. */
  predicate Skips(s: Consumer, a: Step) {
    a.Commit? && s.session.Some? && s.session.value.pending.Some? && s.session.value.pending.value.offset != s.stored
  }

  ghost predicate NeverSkips(s: Consumer, steps: seq<Step>)
    decreases |steps|
  {
    steps == [] || (Enabled(s, steps[0]) && !Skips(s, steps[0]) && NeverSkips(Do(s, steps[0]), steps[1..]))
  }

  /** What a session still has to commit. It never sees the records from low to high, published during its replay. */
  function Remaining(log: Log<Json>, stored: nat, low: nat, high: nat): Log<Json>
    requires low <= high <= |log| && stored <= |log|
  {
    if stored <= low then log[stored..low] + log[high..] else log[stored..]
  }

  ghost predicate Hole(client: seq<Rec<Json>>, low: nat, high: nat) {
    forall r :: r in client ==> r.offset < low || high <= r.offset
  }

  ghost predicate Faithful(client: seq<Rec<Json>>, log: Log<Json>) {
    forall r :: r in client ==> r.offset < |log| && log[r.offset] == r
  }

  ghost predicate Bounded(n: Session, log: Log<Json>, stored: nat, client: seq<Rec<Json>>, low: nat, high: nat) {
    && low <= high <= |log| && stored <= |log| && (stored <= low || high <= stored)
    && Uncommitted(n) + ToWrite(n) == Remaining(log, stored, low, high)
    && (if n.live then n.history == [] else n.queue == [] && high == |log| && stored <= low)
    && (n.pending.Some? ==> n.pending.value in client)
    && Hole(client, low, high)
  }

  ghost predicate Sound(s: Consumer, low: nat, high: nat) {
    && Dense(s.log) && s.stored <= |s.log| && Faithful(s.client, s.log)
    && (s.session.Some? ==> Bounded(s.session.value, s.log, s.stored, s.client, low, high))
  }

  function LowAfter(s: Consumer, a: Step, low: nat): nat { if a.Connect? then |s.log| else low }

  function HighAfter(s: Consumer, a: Step, high: nat): nat {
    if a.Connect? then |s.log|
    else if a.Publish? && s.session.Some? && !s.session.value.live then |s.log| + 1 else high
  }

  lemma RemainingGrows(log: Log<Json>, r: Rec<Json>, stored: nat, low: nat, high: nat)
    requires low <= high <= |log| && stored <= |log|
    ensures Remaining(log + [r], stored, low, high) == Remaining(log, stored, low, high) + [r]
    ensures high == |log| && stored <= low ==>
      Remaining(log + [r], stored, low, |log| + 1) == Remaining(log, stored, low, high)
  {
    assert (log + [r])[high..] == log[high..] + [r] && (log + [r])[stored..] == log[stored..] + [r];
    assert stored <= low ==> (log + [r])[stored..low] == log[stored..low];
    assert (log + [r])[|log| + 1..] == [] && log[|log|..] == [];
  }

  lemma HoleGrows(client: seq<Rec<Json>>, log: Log<Json>, low: nat, r: Rec<Json>)
    requires Faithful(client, log) && low <= |log|
    ensures Hole(client, low, |log|) ==> Hole(client, low, |log| + 1)
    ensures Faithful(client, log + [r])
  {
  }

  lemma PublishSound(s: Consumer, p: Json, low: nat, high: nat)
    requires Sound(s, low, high) && Enabled(s, Publish(p))
    ensures Sound(Do(s, Publish(p)), low, HighAfter(s, Publish(p), high))
  {
    hide Hole, Faithful, Remaining, Dense, Next, Uncommitted, ToWrite;
    var r := Rec(Next(s.log), p);
    DenseGrows(s.log, p);
    HoleGrows(s.client, s.log, if s.session.Some? then low else 0, r);
    if s.session.Some? {
      RemainingGrows(s.log, r, s.stored, low, high);
      QueueMore(s.session.value, r);
    }
  }

  lemma DenseGrows(log: Log<Json>, p: Json)
    requires Dense(log)
    ensures Dense(log + [Rec(Next(log), p)])
  {
  }

  lemma QueueMore(n: Session, r: Rec<Json>)
    ensures Uncommitted(n) + ToWrite(n.(queue := n.queue + [r])) == Uncommitted(n) + ToWrite(n) + [r]
    ensures Uncommitted(n.(queue := n.queue + [r])) == Uncommitted(n)
  {
    assert n.history + (n.queue + [r]) == n.history + n.queue + [r];
    assert Uncommitted(n) + (ToWrite(n) + [r]) == Uncommitted(n) + ToWrite(n) + [r];
  }

  lemma ConnectSound(s: Consumer, low: nat, high: nat)
    requires Sound(s, low, high) && Enabled(s, Connect)
    ensures Sound(Do(s, Connect), |s.log|, |s.log|)
  {
    hide From;
    FromDense(s.log, s.stored);
    var n := Do(s, Connect).session.value;
    assert Uncommitted(n) + ToWrite(n) == From(s.log, s.stored);
    assert Remaining(s.log, s.stored, |s.log|, |s.log|) == s.log[s.stored..];
  }

  /** The next record to write: the stored one, or past the hole. */
  lemma NextToWrite(s: Consumer, low: nat, high: nat)
    requires Sound(s, low, high) && Enabled(s, Write)
    ensures var (n, r) := (s.session.value, ToWrite(s.session.value)[0]);
      && s.stored <= r.offset < |s.log| && s.log[r.offset] == r && (r.offset < low || high <= r.offset)
      && r == Remaining(s.log, s.stored, low, high)[0]
  {
    var n := s.session.value;
    assert [] + ToWrite(n) == ToWrite(n);
    assert ToWrite(n) == Remaining(s.log, s.stored, low, high);
  }

  lemma PoppedKeeps(n: Session)
    requires ToWrite(n) != [] && n.pending.None?
    ensures Uncommitted(Popped(n)) + ToWrite(Popped(n)) == Uncommitted(n) + ToWrite(n)
    ensures Popped(n).live == n.live && Popped(n).pending == Some(ToWrite(n)[0]) && Popped(n).wrote
    ensures (n.history == [] ==> Popped(n).history == []) && (n.queue == [] ==> Popped(n).queue == [])
  {
    if n.history != [] {
      ConsTail(n.history, n.queue);
    } else {
      assert ToWrite(n) == n.queue && ToWrite(Popped(n)) == n.queue[1..];
    }
    hide ToWrite;
    Recons(ToWrite(n));
  }

  lemma Recons(log: Log<Json>)
    requires log != []
    ensures [log[0]] + log[1..] == log && [] + log == log
  {
  }

  lemma ClientGrows(client: seq<Rec<Json>>, log: Log<Json>, low: nat, high: nat, r: Rec<Json>)
    requires Faithful(client, log) && Hole(client, low, high)
    requires r.offset < |log| && log[r.offset] == r && (r.offset < low || high <= r.offset)
    ensures Faithful(client + [r], log) && Hole(client + [r], low, high) && r in client + [r]
  {
  }

  lemma WriteSound(s: Consumer, low: nat, high: nat)
    requires Sound(s, low, high) && Enabled(s, Write)
    ensures Sound(Do(s, Write), low, high)
  {
    hide Hole, Faithful, Remaining, Dense, Uncommitted, ToWrite, Popped;
    NextToWrite(s, low, high);
    PoppedKeeps(s.session.value);
    ClientGrows(s.client, s.log, low, high, ToWrite(s.session.value)[0]);
  }

  lemma RemainingTail(log: Log<Json>, stored: nat, low: nat, high: nat)
    requires Dense(log) && low <= high <= |log| && stored <= |log| && (stored <= low || high <= stored)
    requires Remaining(log, stored, low, high) != []
    ensures var (rest, o) := (Remaining(log, stored, low, high), Remaining(log, stored, low, high)[0].offset);
      && o == (if stored == low then high else stored) && o < |log| && log[o] == rest[0]
      && Remaining(log, o + 1, low, high) == rest[1..]
  {
    hide Remaining;
    if stored == low { TailAtHole(log, low, high); }
    else if stored < low { TailBelowHole(log, stored, low, high); }
    else { TailPastHole(log, stored, low, high); }
  }

  lemma TailPastHole(log: Log<Json>, stored: nat, low: nat, high: nat)
    requires low < stored <= |log| && low <= high <= stored
    ensures Remaining(log, stored, low, high) == log[stored..]
    ensures stored < |log| ==>
      log[stored..][0] == log[stored] && Remaining(log, stored + 1, low, high) == log[stored..][1..]
  {
    if stored < |log| { SuffixTail(log, stored); }
  }

  lemma TailAtHole(log: Log<Json>, low: nat, high: nat)
    requires low <= high <= |log|
    ensures Remaining(log, low, low, high) == log[high..]
    ensures high < |log| ==> log[high..][0] == log[high] && Remaining(log, high + 1, low, high) == log[high..][1..]
  {
    assert [] + log[high..] == log[high..];
    if high < |log| { SuffixTail(log, high); }
  }

  lemma TailBelowHole(log: Log<Json>, stored: nat, low: nat, high: nat)
    requires stored < low <= high <= |log|
    ensures var rest := Remaining(log, stored, low, high);
      rest != [] && rest[0] == log[stored] && Remaining(log, stored + 1, low, high) == rest[1..]
  {
    SliceTail(log, stored, low);
    ConsTail(log[stored..low], log[high..]);
  }

  lemma SuffixTail(log: Log<Json>, from: nat)
    requires from < |log|
    ensures log[from..] == [log[from]] + log[from + 1..] && log[from..][1..] == log[from + 1..]
  {
  }

  lemma SliceTail(log: Log<Json>, from: nat, to: nat)
    requires from < to <= |log|
    ensures log[from..to] != [] && log[from..to][0] == log[from] && log[from..to][1..] == log[from + 1..to]
  {
  }

  lemma ConsTail(a: Log<Json>, b: Log<Json>)
    requires a != []
    ensures (a + b)[0] == a[0] && (a + b)[1..] == a[1..] + b
  {
  }

  lemma CommitSound(s: Consumer, low: nat, high: nat)
    requires Sound(s, low, high) && Enabled(s, Commit)
    ensures Sound(Do(s, Commit), low, high)
    ensures var o := s.session.value.pending.value.offset;
      && o < |s.log| && s.log[o] in s.client && (if s.stored == low then o == high else o == s.stored)
  {
    hide Hole, Faithful, Remaining, Dense, Uncommitted, ToWrite;
    PendingFirst(s.session.value);
    RemainingTail(s.log, s.stored, low, high);
  }

  lemma PendingFirst(n: Session)
    requires n.pending.Some?
    ensures Uncommitted(n) + ToWrite(n) != [] && (Uncommitted(n) + ToWrite(n))[0] == n.pending.value
    ensures (Uncommitted(n) + ToWrite(n))[1..] == ToWrite(n)
    ensures Uncommitted(n.(pending := None)) + ToWrite(n.(pending := None)) == ToWrite(n)
  {
    assert [] + ToWrite(n) == ToWrite(n);
  }

  lemma StepSound(s: Consumer, a: Step, low: nat, high: nat)
    requires Sound(s, low, high) && Enabled(s, a)
    ensures Sound(Do(s, a), LowAfter(s, a, low), HighAfter(s, a, high))
  {
    hide From, Hole, Faithful, Dense, Remaining;
    match a
    case Publish(p) => PublishSound(s, p, low, high);
    case Connect => ConnectSound(s, low, high);
    case Write => WriteSound(s, low, high);
    case Commit => CommitSound(s, low, high);
    case _ =>
  }

  /** A step opens a gap exactly when it is a commit that skips, and no step closes one. */
  lemma StepGap(s: Consumer, a: Step, low: nat, high: nat)
    requires Sound(s, low, high) && Enabled(s, a)
    ensures s.stored <= Do(s, a).stored <= |Do(s, a).log|
    ensures NoGap(Do(s, a)) <==> NoGap(s) && !Skips(s, a)
    ensures forall o :: 0 <= o < s.stored ==>
      Do(s, a).log[o] == s.log[o] && (s.log[o] in Do(s, a).client <==> s.log[o] in s.client)
  {
    hide From, Remaining, ToWrite, Hole, NoGap;
    match a
    case Write => WriteGap(s, low, high);
    case Commit => CommitGap(s, low, high);
    case _ => SameGap(s, Do(s, a));
  }

  lemma SameGap(s: Consumer, s': Consumer)
    requires s'.stored == s.stored <= |s.log| && s.log <= s'.log
    requires forall o :: 0 <= o < s.stored ==> (s.log[o] in s'.client <==> s.log[o] in s.client)
    ensures NoGap(s') <==> NoGap(s)
  {
    assert forall o :: 0 <= o < s.stored ==> s'.log[o] == s.log[o];
  }

  lemma WriteGap(s: Consumer, low: nat, high: nat)
    requires Sound(s, low, high) && Enabled(s, Write)
    ensures NoGap(Do(s, Write)) <==> NoGap(s)
    ensures forall o :: 0 <= o < s.stored ==> (s.log[o] in Do(s, Write).client <==> s.log[o] in s.client)
  {
    NextToWrite(s, low, high);
    var r := ToWrite(s.session.value)[0];
    forall o | 0 <= o < s.stored ensures s.log[o] in s.client + [r] <==> s.log[o] in s.client { assert s.log[o] != r; }
    hide NoGap;
    SameGap(s, Do(s, Write));
  }

  lemma CommitGap(s: Consumer, low: nat, high: nat)
    requires Sound(s, low, high) && Enabled(s, Commit)
    ensures s.stored < Do(s, Commit).stored <= |s.log|
    ensures NoGap(Do(s, Commit)) <==> NoGap(s) && !Skips(s, Commit)
  {
    CommitSound(s, low, high);
    if s.session.value.pending.value.offset != s.stored { InHole(s.client, s.log, low, high); }
    hide Remaining, ToWrite, Uncommitted, Hole, Faithful, Dense, WrittenBelow;
    var o := s.session.value.pending.value.offset;
    if o == s.stored { OneFurther(s.client, s.log, o); } else { NotPast(s.client, s.log, low, o + 1); }
  }

  lemma OneFurther(client: seq<Rec<Json>>, log: Log<Json>, n: nat)
    requires n < |log| && log[n] in client
    ensures WrittenBelow(client, log, n + 1) <==> WrittenBelow(client, log, n)
  {
    assert WrittenBelow(client, log, n + 1) ==> WrittenBelow(client, log, n);
  }

  lemma NotPast(client: seq<Rec<Json>>, log: Log<Json>, k: nat, n: nat)
    requires k < n <= |log| && log[k] !in client
    ensures !WrittenBelow(client, log, n)
  {
  }

  lemma InHole(client: seq<Rec<Json>>, log: Log<Json>, low: nat, high: nat)
    requires Dense(log) && Hole(client, low, high) && low < high <= |log|
    ensures log[low] !in client
  {
  }

  lemma {:induction false} GapExactly(s: Consumer, steps: seq<Step>, s': Consumer, low: nat, high: nat)
    requires Sound(s, low, high) && Reaches(s, steps, s')
    ensures s'.stored <= |s'.log|
    ensures NoGap(s') <==> NoGap(s) && NeverSkips(s, steps)
    decreases |steps|
  {
    hide Sound, Enabled, Do, NoGap, Skips;
    if steps == [] {
      StoredInLog(s, low, high);
    } else {
      StepSound(s, steps[0], low, high);
      StepGap(s, steps[0], low, high);
      GapExactly(Do(s, steps[0]), steps[1..], s', LowAfter(s, steps[0], low), HighAfter(s, steps[0], high));
    }
  }

  lemma StoredInLog(s: Consumer, low: nat, high: nat)
    requires Sound(s, low, high)
    ensures s.stored <= |s.log|
  {
  }

  lemma StartSound(log: Log<Json>)
    requires Dense(log)
    ensures Sound(Start(log), 0, 0) && NoGap(Start(log))
  {
  }

  /** Over every run from stored offset 0, whenever records are published: every record below the stored offset has been
      written to the client if and only if no commit was of a record other than the next one. */
  lemma ResumesExactly(log: Log<Json>, steps: seq<Step>, s: Consumer)
    requires Dense(log) && Reaches(Start(log), steps, s)
    ensures s.stored <= |s.log|
    ensures NoGap(s) <==> NeverSkips(Start(log), steps)
  {
    hide Reaches, NoGap, NeverSkips, Sound;
    StartSound(log);
    GapExactly(Start(log), steps, s, 0, 0);
  }

  lemma {:induction false} RunSound(s: Consumer, steps: seq<Step>, s': Consumer, low: nat, high: nat)
    returns (low': nat, high': nat)
    requires Sound(s, low, high) && Reaches(s, steps, s')
    ensures Sound(s', low', high')
    decreases |steps|
  {
    hide Sound, Enabled, Do;
    if steps == [] {
      low', high' := low, high;
    } else {
      StepSound(s, steps[0], low, high);
      low', high' :=
        RunSound(Do(s, steps[0]), steps[1..], s', LowAfter(s, steps[0], low), HighAfter(s, steps[0], high));
    }
  }

  lemma {:induction false} StaysLost(s: Consumer, steps: seq<Step>, s': Consumer, low: nat, high: nat, o: nat)
    requires Sound(s, low, high) && Reaches(s, steps, s') && o < s.stored <= |s.log| && s.log[o] !in s.client
    ensures o < s'.stored <= |s'.log| && s'.log[o] == s.log[o] && s'.log[o] !in s'.client
    decreases |steps|
  {
    hide Sound, Enabled, Do, NoGap, Skips;
    if steps != [] {
      StepSound(s, steps[0], low, high);
      StepGap(s, steps[0], low, high);
      StaysLost(Do(s, steps[0]), steps[1..], s', LowAfter(s, steps[0], low), HighAfter(s, steps[0], high), o);
    }
  }

  /** A commit that skips loses exactly the records it skips, for good: none of them is written on any continuation. */
  lemma LostForGood(log: Log<Json>, before: seq<Step>, s: Consumer, after: seq<Step>, s': Consumer, o: nat)
    requires Dense(log) && Reaches(Start(log), before, s) && Enabled(s, Commit) && Skips(s, Commit)
    requires s.stored <= o < s.session.value.pending.value.offset && Reaches(Do(s, Commit), after, s')
    ensures o < s'.stored <= |s'.log| && s'.log[o] !in s'.client
  {
    hide Reaches;
    StartSound(log);
    var low, high := RunSound(Start(log), before, s, 0, 0);
    CommitSound(s, low, high);
    assert s.log[o] !in s.client;
    hide Sound;
    StaysLost(Do(s, Commit), after, s', low, high, o);
  }

  // ----- repetitions -----

  /** The records that were written and not committed when a session of the run ended. */
  ghost function Dropped(s: Consumer, steps: seq<Step>): set<Rec<Json>>
    decreases |steps|
  {
    if steps == [] || !Enabled(s, steps[0]) then {} else DroppedBy(s, steps[0]) + Dropped(Do(s, steps[0]), steps[1..])
  }

  function DroppedBy(s: Consumer, a: Step): set<Rec<Json>> {
    if a.Disconnect? && s.session.Some? && s.session.value.pending.Some? then {s.session.value.pending.value} else {}
  }

  /** What was written at the stored offset or later is pending or was dropped. */
  ghost predicate Accounted(s: Consumer, dropped: set<Rec<Json>>) {
    && (forall r :: r in dropped ==> r in s.client)
    && (forall r :: r in s.client && r.offset >= s.stored ==>
          r in dropped || (s.session.Some? && s.session.value.pending == Some(r)))
  }

  lemma StepAccounted(s: Consumer, a: Step, low: nat, high: nat, dropped: set<Rec<Json>>)
    requires Sound(s, low, high) && Enabled(s, a) && Accounted(s, dropped)
    ensures Accounted(Do(s, a), dropped + DroppedBy(s, a))
  {
    hide From, Remaining, ToWrite, Hole, Faithful, Dense, Uncommitted;
    if a.Commit? { CommitForward(s, low, high); }
  }

  lemma CommitForward(s: Consumer, low: nat, high: nat)
    requires Sound(s, low, high) && Enabled(s, Commit)
    ensures s.stored < Do(s, Commit).stored
  {
    hide NoGap, Skips, Sound;
    CommitGap(s, low, high);
  }

  lemma {:induction false} RunAccounted(
    s: Consumer, steps: seq<Step>, s': Consumer, low: nat, high: nat, dropped: set<Rec<Json>>)
    returns (low': nat, high': nat)
    requires Sound(s, low, high) && Accounted(s, dropped) && Reaches(s, steps, s')
    ensures Sound(s', low', high') && Accounted(s', dropped + Dropped(s, steps))
    decreases |steps|
  {
    hide Sound, Accounted, Enabled, Do, DroppedBy;
    if steps == [] {
      low', high' := low, high;
      assert dropped + {} == dropped;
    } else {
      var (a, rest) := (steps[0], steps[1..]);
      StepSound(s, a, low, high);
      StepAccounted(s, a, low, high, dropped);
      var more := dropped + DroppedBy(s, a);
      low', high' := RunAccounted(Do(s, a), rest, s', LowAfter(s, a, low), HighAfter(s, a, high), more);
      assert more + Dropped(Do(s, a), rest) == dropped + (DroppedBy(s, a) + Dropped(Do(s, a), rest));
    }
  }

  /** Over every run: the next record to write was written before if and only if an earlier session of the run ended
      after writing it and before committing it. */
  lemma RepeatsOnlyUncommitted(log: Log<Json>, steps: seq<Step>, s: Consumer)
    requires Dense(log) && Reaches(Start(log), steps, s) && Enabled(s, Write)
    ensures var r := ToWrite(s.session.value)[0]; r in s.client <==> r in Dropped(Start(log), steps)
  {
    hide Reaches, Dropped, Sound;
    StartSound(log);
    var low, high := RunAccounted(Start(log), steps, s, 0, 0, {});
    NextToWrite(s, low, high);
    assert {} + Dropped(Start(log), steps) == Dropped(Start(log), steps);
  }

  // ----- runs where nothing is published during a replay -----

  ghost predicate Quiet(s: Consumer, steps: seq<Step>)
    decreases |steps|
  {
    steps == [] || (Enabled(s, steps[0]) && !DuringReplay(s, steps[0]) && Quiet(Do(s, steps[0]), steps[1..]))
  }

  lemma {:induction false} QuietRun(s: Consumer, steps: seq<Step>, s': Consumer, high: nat) returns (high': nat)
    requires InvAt(s, high) && Reaches(s, steps, s') && Quiet(s, steps)
    ensures InvAt(s', high') && NeverSkips(s, steps)
    decreases |steps|
  {
    hide InvAt, Enabled, Do, Skips;
    if steps == [] {
      high' := high;
    } else {
      StepKeeps(s, steps[0], high);
      QuietStep(s, steps[0], high);
      high' := QuietRun(Do(s, steps[0]), steps[1..], s', WrittenAfter(s, steps[0], high));
    }
  }

  lemma QuietStep(s: Consumer, a: Step, high: nat)
    requires InvAt(s, high) && Enabled(s, a)
    ensures !Skips(s, a)
  {
    if a.Commit? { CommitOk(s, high); }
  }

  /** Such runs never skip: the client has been written the log in order from its start, without gap, each record
      possibly repeated on the spot; every record below the stored offset is among them; and dropping the repetitions
      leaves at most one record past the stored offset. */
  lemma ResumptionTheorem(log: Log<Json>, steps: seq<Step>, s: Consumer)
    requires Dense(log) && Reaches(Start(log), steps, s) && Quiet(Start(log), steps)
    ensures s.stored <= |s.log| && NoGap(s)
    ensures exists high ::
      s.stored <= high <= s.stored + 1 && Stutters(s.client, s.log, high) && PutAll([], s.client) == s.log[..high]
  {
    hide Reaches, Quiet, NeverSkips, PutAll, Enabled, Do, NoGap;
    var high := QuietRun(Start(log), steps, s, 0);
    ResumesExactly(log, steps, s);
    StuttersReplay(s.client, s.log, high);
  }

  /** In such runs a write repeats a record only as the first of a session, and then the one written last. */
  lemma QuietRepeats(log: Log<Json>, steps: seq<Step>, s: Consumer)
    requires Dense(log) && Reaches(Start(log), steps, s) && Quiet(Start(log), steps) && Enabled(s, Write)
    ensures var r := ToWrite(s.session.value)[0];
      r in s.client <==>
        s.client != [] && s.client[|s.client| - 1] == r && r.offset == s.stored && !s.session.value.wrote
  {
    hide Reaches, Quiet, NeverSkips, Do;
    var high := QuietRun(Start(log), steps, s, 0);
    WritesStored(s, high);
  }

  lemma FrontStutters(client: seq<Rec<Json>>, log: Log<Json>, high: nat)
    requires Stutters(client, log, high) && |client| > 1
    ensures var front := client[..|client| - 1]; Stutters(front, log, front[|front| - 1].offset + 1)
  {
    var front := client[..|client| - 1];
    assert client[|client| - 2].offset <= client[|client| - 1].offset;
    forall i | 0 <= i < |front| ensures front[i].offset <= front[|front| - 1].offset {
      ClimbsTo(client, log, high, i, |client| - 2);
    }
  }

  lemma {:induction false} ClimbsTo(client: seq<Rec<Json>>, log: Log<Json>, high: nat, i: nat, j: nat)
    requires Stutters(client, log, high) && i <= j < |client|
    ensures client[i].offset <= client[j].offset
    decreases j - i
  {
    if i < j { ClimbsTo(client, log, high, i + 1, j); }
  }

  lemma {:induction false} StuttersReplay(client: seq<Rec<Json>>, log: Log<Json>, high: nat)
    requires Stutters(client, log, high) && Dense(log)
    ensures PutAll([], client) == log[..high]
    decreases |client|
  {
    if client != [] {
      var (front, r) := (client[..|client| - 1], client[|client| - 1]);
      assert client == front + [r];
      PutAllConcat([], front, [r]);
      if front == [] {
        assert client[0] == r;
        OneMore(log, 0, r);
      } else {
        FrontStutters(client, log, high);
        var h := front[|front| - 1].offset + 1;
        StuttersReplay(front, log, h);
        assert h <= high <= h + 1;
        hide Stutters, PutAll;
        OneMore(log, h, r);
      }
    }
  }

  /** Putting the next record, or the last one again, on a prefix of the log. */
  lemma OneMore(log: Log<Json>, h: nat, r: Rec<Json>)
    requires Dense(log) && r.offset < |log| && log[r.offset] == r && h <= r.offset + 1 <= h + 1 && h <= |log|
    ensures PutAll(log[..h], [r]) == log[..r.offset + 1]
  {
    assert [r][1..] == [];
    assert PutAll(log[..h], [r]) == PutAll(Put(log[..h], Some(r.offset), r.payload), []);
    assert h > 0 ==> log[..h][h - 1].offset == h - 1;
  }

  // ----- a publish during the replay -----

  /** A session that has written something. */
  function Busy(pending: Option<Rec<Json>>, live: bool, queue: Log<Json>): Option<Session> {
    Some(Session(pending, [], live, queue, true))
  }

  lemma ReachesFirst(s: Consumer, a: Step, s1: Consumer, rest: seq<Step>, s': Consumer)
    requires Enabled(s, a) && Do(s, a) == s1 && Reaches(s1, rest, s')
    ensures Reaches(s, [a] + rest, s')
  {
    hide Enabled, Do;
    assert ([a] + rest)[1..] == rest;
  }

  lemma ReachesOn(s: Consumer, a: seq<Step>, s1: Consumer, b: seq<Step>, s2: Consumer)
    requires Reaches(s, a, s1) && Reaches(s1, b, s2)
    ensures Reaches(s, a + b, s2)
    decreases |a|
  {
    hide Enabled, Do;
    if a == [] {
      assert a + b == b;
    } else {
      assert (a + b)[1..] == a[1..] + b;
      ReachesOn(Do(s, a[0]), a[1..], s1, b, s2);
    }
  }

  lemma ReachesNow(s: Consumer, a: Step, s': Consumer)
    requires Enabled(s, a) && Do(s, a) == s'
    ensures Reaches(s, [a], s')
  {
    hide Enabled, Do;
    assert Reaches(s', [], s');
    assert [a][1..] == [];
  }

  // A replay that nothing interrupts.

  function WriteCommits(k: nat): seq<Step> { if k == 0 then [] else WriteCommits(k - 1) + [Write, Commit] }

  /** A session after k records of the history it read have been written and committed. */
  function Replayed(s: Consumer, k: nat): Consumer
    requires k <= |From(s.log, s.stored)|
  {
    var history := From(s.log, s.stored);
    Consumer(s.log, if k == 0 then s.stored else history[k - 1].offset + 1,
      Some(Session(None, history[k..], false, [], k > 0)), s.client + history[..k])
  }

  /** A session that writes and commits the records of its history one by one. */
  lemma {:induction false} ReplayRuns(s: Consumer, k: nat)
    requires s.session.None? && k <= |From(s.log, s.stored)|
    ensures Reaches(s, [Connect] + WriteCommits(k), Replayed(s, k))
  {
    hide From;
    var history := From(s.log, s.stored);
    if k == 0 {
      assert s.client + history[..0] == s.client && history[0..] == history;
      ReachesNow(s, Connect, Replayed(s, 0));
      assert [Connect] + [] == [Connect];
    } else {
      ReplayRuns(s, k - 1);
      var (s1, s3) := (Replayed(s, k - 1), Replayed(s, k));
      assert history[k - 1..][1..] == history[k..] && history[k - 1..] + [] == history[k - 1..];
      assert s.client + history[..k - 1] + [history[k - 1]] == s.client + history[..k];
      var s2 := s3.(stored := s1.stored, session := Some(s3.session.value.(pending := Some(history[k - 1]))));
      assert Enabled(s1, Write) && Do(s1, Write) == s2;
      ReachesNow(s2, Commit, s3);
      hide Enabled, Do, Reaches;
      ReachesFirst(s1, Write, s2, [Commit], s3);
      assert [Write] + [Commit] == [Write, Commit];
      ReachesOn(s, [Connect] + WriteCommits(k - 1), s1, [Write, Commit], s3);
      assert [Connect] + WriteCommits(k) == [Connect] + WriteCommits(k - 1) + [Write, Commit];
    }
  }

  /** It goes live after the last of them. */
  lemma ReplayGoesLive(s: Consumer)
    requires s.session.None?
    ensures var (n, s1) := (|From(s.log, s.stored)|, Replayed(s, |From(s.log, s.stored)|));
      Reaches(s, [Connect] + WriteCommits(n) + [GoLive],
        s1.(session := Some(Session(None, [], true, [], n > 0))))
  {
    hide From;
    var (n, s1) := (|From(s.log, s.stored)|, Replayed(s, |From(s.log, s.stored)|));
    ReplayRuns(s, n);
    ReachesNow(s1, GoLive, s1.(session := Some(Session(None, [], true, [], n > 0))));
    hide Reaches;
    ReachesOn(s, [Connect] + WriteCommits(n), s1, [GoLive], s1.(session := Some(Session(None, [], true, [], n > 0))));
  }

  /** It breaks off after k of them, with one more record written or not. */
  lemma ReplayBreaks(s: Consumer, k: nat, oneMore: bool)
    requires s.session.None? && k < |From(s.log, s.stored)|
    ensures var (history, s1) := (From(s.log, s.stored), Replayed(s, k));
      Reaches(s, [Connect] + WriteCommits(k) + if oneMore then [Write, Disconnect] else [Disconnect],
        s1.(session := None, client := s1.client + if oneMore then [history[k]] else []))
  {
    hide From;
    ReplayRuns(s, k);
    var (history, s1) := (From(s.log, s.stored), Replayed(s, k));
    assert history[k..] + [] == history[k..] && s1.client + [] == s1.client;
    var s2 := s1.(session := None, client := s1.client + if oneMore then [history[k]] else []);
    if oneMore {
      var mid := Do(s1, Write);
      ReachesNow(mid, Disconnect, s2);
      ReachesFirst(s1, Write, mid, [Disconnect], s2);
      assert [Write] + [Disconnect] == [Write, Disconnect];
    } else {
      ReachesNow(s1, Disconnect, s2);
    }
    hide Reaches;
    ReachesOn(s, [Connect] + WriteCommits(k), s1, if oneMore then [Write, Disconnect] else [Disconnect], s2);
  }

  /** The only record is written, and while its write drains a second one is published. */
  lemma PublishedInDrain(first: Json, p: Json)
    ensures var (r0, r1) := (Rec(0, first), Rec(1, p));
      Reaches(Start([r0]), [Connect, Write, Publish(p)], Consumer([r0, r1], 0, Busy(Some(r0), false, []), [r0]))
  {
    var (r0, r1) := (Rec(0, first), Rec(1, p));
    var s1 := Consumer([r0], 0, Some(Session(None, [r0], false, [], false)), []);
    var s2 := Consumer([r0], 0, Busy(Some(r0), false, []), [r0]);
    FromDense([r0], 0);
    hide From;
    assert [] + [r0] == [r0] && [r0][0..] == [r0] && [r0][1..] == [] && [r0] + [r1] == [r0, r1];
    ReachesNow(s2, Publish(p), Consumer([r0, r1], 0, Busy(Some(r0), false, []), [r0]));
    ReachesFirst(s1, Write, s2, [Publish(p)], Consumer([r0, r1], 0, Busy(Some(r0), false, []), [r0]));
    hide Enabled, Do, Reaches;
    ReachesFirst(Start([r0]), Connect, s1, [Write, Publish(p)], Consumer([r0, r1], 0, Busy(Some(r0), false, []), [r0]));
    assert [Write] + [Publish(p)] == [Write, Publish(p)];
    assert [Connect] + [Write, Publish(p)] == [Connect, Write, Publish(p)];
  }

  /** The session goes live, and a third record is published: it has the third record in its queue, and not the
      second. */
  lemma Overtaken(first: Json, p: Json, q: Json)
    ensures var (r0, r1, r2) := (Rec(0, first), Rec(1, p), Rec(2, q));
      Reaches(Consumer([r0, r1], 0, Busy(Some(r0), false, []), [r0]), [Commit, GoLive, Publish(q)],
              Consumer([r0, r1, r2], 1, Busy(None, true, [r2]), [r0]))
  {
    var (r0, r1, r2) := (Rec(0, first), Rec(1, p), Rec(2, q));
    var s1 := Consumer([r0, r1], 1, Busy(None, false, []), [r0]);
    var (s2, s3) := (s1.(session := Busy(None, true, [])), Consumer([r0, r1, r2], 1, Busy(None, true, [r2]), [r0]));
    assert [r0, r1] + [r2] == [r0, r1, r2] && [] + [r2] == [r2];
    ReachesNow(s2, Publish(q), s3);
    ReachesFirst(s1, GoLive, s2, [Publish(q)], s3);
    var s0 := Consumer([r0, r1], 0, Busy(Some(r0), false, []), [r0]);
    assert Enabled(s0, Commit) && Do(s0, Commit) == s1;
    hide Enabled, Do, Reaches;
    assert [GoLive] + [Publish(q)] == [GoLive, Publish(q)];
    ReachesFirst(s0, Commit, s1, [GoLive, Publish(q)], s3);
    assert [Commit] + [GoLive, Publish(q)] == [Commit, GoLive, Publish(q)];
  }

  /** A run with a publish while the last record of the history drains: if the session lives to commit the record
      published after that, the one published meanwhile is lost for good. */
  lemma ReplayLosesPublish(first: Json, p: Json, q: Json, after: seq<Step>, s': Consumer)
    ensures var (r0, r1, r2) := (Rec(0, first), Rec(1, p), Rec(2, q));
      var s := Consumer([r0, r1, r2], 3, Busy(None, true, []), [r0, r2]);
      && Reaches(Start([r0]), [Connect, Write, Publish(p)] + [Commit, GoLive, Publish(q)] + [Write, Commit], s)
      && (Reaches(s, after, s') ==> 1 < s'.stored <= |s'.log| && s'.log[1] == r1 && r1 !in s'.client)
  {
    hide Reaches;
    var (r0, r1, r2) := (Rec(0, first), Rec(1, p), Rec(2, q));
    var (s1, s2) :=
      (Consumer([r0, r1], 0, Busy(Some(r0), false, []), [r0]), Consumer([r0, r1, r2], 1, Busy(None, true, [r2]), [r0]));
    var (s3, s) :=
      (Consumer([r0, r1, r2], 1, Busy(Some(r2), true, []), [r0, r2]),
        Consumer([r0, r1, r2], 3, Busy(None, true, []), [r0, r2]));
    PublishedInDrain(first, p);
    Overtaken(first, p, q);
    WritesThird(first, p, q);
    ReachesOn(Start([r0]), [Connect, Write, Publish(p)], s1, [Commit, GoLive, Publish(q)], s2);
    ReachesOn(Start([r0]), [Connect, Write, Publish(p)] + [Commit, GoLive, Publish(q)], s2, [Write, Commit], s);
    SoundAfterLoss(r0, r1, r2);
    if Reaches(s, after, s') { StaysLost(s, after, s', 1, 2, 1); }
  }

  lemma WritesThird(first: Json, p: Json, q: Json)
    ensures var (r0, r1, r2) := (Rec(0, first), Rec(1, p), Rec(2, q));
      Reaches(Consumer([r0, r1, r2], 1, Busy(None, true, [r2]), [r0]), [Write, Commit],
              Consumer([r0, r1, r2], 3, Busy(None, true, []), [r0, r2]))
  {
    var (r0, r1, r2) := (Rec(0, first), Rec(1, p), Rec(2, q));
    var s1 := Consumer([r0, r1, r2], 1, Busy(Some(r2), true, []), [r0, r2]);
    assert [] + [r2] == [r2] && [r2][1..] == [] && [r0] + [r2] == [r0, r2];
    ReachesNow(s1, Commit, Consumer([r0, r1, r2], 3, Busy(None, true, []), [r0, r2]));
    var s0 := Consumer([r0, r1, r2], 1, Busy(None, true, [r2]), [r0]);
    assert Enabled(s0, Write) && Do(s0, Write) == s1;
    hide Enabled, Do, Reaches;
    ReachesFirst(s0, Write, s1, [Commit], Consumer([r0, r1, r2], 3, Busy(None, true, []), [r0, r2]));
    assert [Write] + [Commit] == [Write, Commit];
  }

  lemma SoundAfterLoss(r0: Rec<Json>, r1: Rec<Json>, r2: Rec<Json>)
    requires r0.offset == 0 && r1.offset == 1 && r2.offset == 2
    ensures Sound(Consumer([r0, r1, r2], 3, Busy(None, true, []), [r0, r2]), 1, 2)
    ensures r1 !in [r0, r2]
  {
    assert [r0, r1, r2][3..] == [];
  }

  /** The same run, ended before that commit: the next session writes the record. */
  lemma ReplayPublishRecovered(first: Json, p: Json, q: Json)
    ensures var (r0, r1, r2) := (Rec(0, first), Rec(1, p), Rec(2, q));
      Reaches(Start([r0]), [Connect, Write, Publish(p)] + [Commit, GoLive, Publish(q)] + [Disconnect, Connect, Write],
              Consumer([r0, r1, r2], 1, Some(Session(Some(r1), [r2], false, [], true)), [r0, r1]))
  {
    hide Reaches;
    var (r0, r1, r2) := (Rec(0, first), Rec(1, p), Rec(2, q));
    var (s1, s2) :=
      (Consumer([r0, r1], 0, Busy(Some(r0), false, []), [r0]), Consumer([r0, r1, r2], 1, Busy(None, true, [r2]), [r0]));
    PublishedInDrain(first, p);
    Overtaken(first, p, q);
    WritesSecond(first, p, q);
    ReachesOn(Start([r0]), [Connect, Write, Publish(p)], s1, [Commit, GoLive, Publish(q)], s2);
    ReachesOn(Start([r0]), [Connect, Write, Publish(p)] + [Commit, GoLive, Publish(q)], s2,
      [Disconnect, Connect, Write],
      Consumer([r0, r1, r2], 1, Some(Session(Some(r1), [r2], false, [], true)), [r0, r1]));
  }

  lemma WritesSecond(first: Json, p: Json, q: Json)
    ensures var (r0, r1, r2) := (Rec(0, first), Rec(1, p), Rec(2, q));
      Reaches(Consumer([r0, r1, r2], 1, Busy(None, true, [r2]), [r0]), [Disconnect, Connect, Write],
              Consumer([r0, r1, r2], 1, Some(Session(Some(r1), [r2], false, [], true)), [r0, r1]))
  {
    var (r0, r1, r2) := (Rec(0, first), Rec(1, p), Rec(2, q));
    var log := [r0, r1, r2];
    var (s0, s1) := (Consumer(log, 1, Busy(None, true, [r2]), [r0]), Consumer(log, 1, None, [r0]));
    var s2 := Consumer(log, 1, Some(Session(None, [r1, r2], false, [], false)), [r0]);
    var s3 := Consumer(log, 1, Some(Session(Some(r1), [r2], false, [], true)), [r0, r1]);
    FromDense(log, 1);
    assert log[1..] == [r1, r2];
    hide From;
    assert [r1, r2] + [] == [r1, r2] && [r1, r2][1..] == [r2] && [r0] + [r1] == [r0, r1];
    ReachesNow(s2, Write, s3);
    assert Enabled(s1, Connect) && Do(s1, Connect) == s2;
    assert Enabled(s0, Disconnect) && Do(s0, Disconnect) == s1;
    hide Enabled, Do, Reaches;
    ReachesFirst(s1, Connect, s2, [Write], s3);
    assert [Connect] + [Write] == [Connect, Write];
    ReachesFirst(s0, Disconnect, s1, [Connect, Write], s3);
    assert [Disconnect] + [Connect, Write] == [Disconnect, Connect, Write];
  }
}
