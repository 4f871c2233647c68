/** Topic-partition keys `topic-id` and log file names `topic-id.jsonl`. */
module Keys {
  import opened Wrappers
  import opened Decimal

  datatype TopicPartition = TopicPartition(topic: string, id: nat)

  const SUFFIX := ".jsonl"

  function Key(tp: TopicPartition): string { tp.topic + "-" + Digits(tp.id) }

  function FileName(tp: TopicPartition): string { Key(tp) + SUFFIX }

  /** The text after the last dash, as `rsplit("-", 1)` finds it; None without a dash. */
  function LastDash(k: string): (i: Option<nat>)
    ensures i.Some? ==> i.value < |k| && k[i.value] == '-' && forall j :: i.value < j < |k| ==> k[j] != '-'
    ensures i.None? ==> '-' !in k
  {
    if k == "" then None
    else if k[|k| - 1] == '-' then Some(|k| - 1)
    else LastDash(k[..|k| - 1])
  }

  /** rsplit, isdigit and int, as recovery and catch-up apply them to a key. */
  function SplitKey(k: string): Option<TopicPartition> {
    match LastDash(k)
    case None => None
    case Some(i) =>
      var tail := k[i + 1..];
      if tail != "" && AllDigits(tail) then Some(TopicPartition(k[..i], Value(tail))) else None
  }

  /** What start-up discovers from a name in the log directory: `glob("*-*.jsonl")`, then the key split. */
  function SplitFileName(name: string): Option<TopicPartition> {
    if |name| >= |SUFFIX| && name[|name| - |SUFFIX|..] == SUFFIX && '/' !in name
    then SplitKey(name[..|name| - |SUFFIX|])
    else None
  }

  /** A key is split into exactly this topic and partition: what stands before the last dash, and the number written in
      one or more digits after it. Nothing else is split. */
  lemma SplitsExactly(k: string, tp: TopicPartition)
    ensures SplitKey(k) == Some(tp) <==>
      exists d: string :: d != "" && AllDigits(d) && Value(d) == tp.id && k == tp.topic + "-" + d
  {
    if SplitKey(k) == Some(tp) {
      var i := LastDash(k).value;
      assert k == k[..i] + "-" + k[i + 1..];
    }
    forall d: string | d != "" && AllDigits(d) && Value(d) == tp.id && k == tp.topic + "-" + d
      ensures SplitKey(k) == Some(tp)
    {
      DashBefore(tp.topic, d);
    }
  }

  lemma DashBefore(topic: string, d: string)
    requires AllDigits(d)
    ensures var k := topic + "-" + d; LastDash(k) == Some(|topic|) && k[..|topic|] == topic && k[|topic| + 1..] == d
  {
    var k := topic + "-" + d;
    assert k[|topic|] == '-' && k[|topic| + 1..] == d;
    forall j | |topic| < j < |k| ensures k[j] != '-' { assert k[j] == d[j - |topic| - 1]; }
  }

  /** Start-up takes a name for this partition's file exactly if it is the topic, a dash, the number in one or more
      digits, and .jsonl, all in the log directory itself. */
  lemma DiscoversExactly(name: string, tp: TopicPartition)
    ensures SplitFileName(name) == Some(tp) <==>
      '/' !in name && exists d: string ::
        d != "" && AllDigits(d) && Value(d) == tp.id && name == tp.topic + "-" + d + ".jsonl"
  {
    hide SplitKey;
    if SplitFileName(name) == Some(tp) {
      var stem := name[..|name| - |SUFFIX|];
      assert name == stem + SUFFIX;
      SplitsExactly(stem, tp);
    }
    if '/' !in name {
      forall d: string | d != "" && AllDigits(d) && Value(d) == tp.id && name == tp.topic + "-" + d + ".jsonl"
        ensures SplitFileName(name) == Some(tp)
      {
        var stem := tp.topic + "-" + d;
        assert name[..|name| - |SUFFIX|] == stem && name[|name| - |SUFFIX|..] == ".jsonl";
        SplitsExactly(stem, tp);
      }
    }
  }

  /** Splitting a key at its last dash recovers topic and partition, whatever dashes and digits the topic has. */
  lemma KeyRoundTrip(tp: TopicPartition)
    ensures SplitKey(Key(tp)) == Some(tp)
  {
    var k, d := Key(tp), Digits(tp.id);
    assert k[|tp.topic|] == '-';
    assert k[|tp.topic| + 1..] == d;
    forall j | |tp.topic| < j < |k| ensures k[j] != '-' { assert k[j] == d[j - |tp.topic| - 1]; }
    assert LastDash(k) == Some(|tp.topic|);
    assert k[..|tp.topic|] == tp.topic;
  }

  lemma KeyInjective(a: TopicPartition, b: TopicPartition)
    ensures Key(a) == Key(b) <==> a == b
    ensures FileName(a) == FileName(b) <==> a == b
  {
    KeyRoundTrip(a);
    KeyRoundTrip(b);
    assert FileName(a)[..|Key(a)|] == Key(a) && FileName(b)[..|Key(b)|] == Key(b);
  }

  lemma FileNameRoundTrip(tp: TopicPartition)
    ensures SplitFileName(FileName(tp)) == if '/' in tp.topic then None else Some(tp)
  {
    var name, k := FileName(tp), Key(tp);
    assert name[..|k|] == k && name[|k|..] == SUFFIX;
    KeyRoundTrip(tp);
    if '/' in tp.topic {
      var i :| 0 <= i < |tp.topic| && tp.topic[i] == '/';
      assert name[i] == '/';
    } else {
      forall i | 0 <= i < |name| ensures name[i] != '/' {
        if |tp.topic| < i < |k| { assert name[i] == Digits(tp.id)[i - |tp.topic| - 1]; }
        if i >= |k| { assert name[i] == SUFFIX[i - |k|]; }
      }
    }
  }

  /** Conversely, a splittable key is rebuilt exactly when its numeral has no leading zero. */
  lemma KeyRebuilt(k: string)
    requires SplitKey(k).Some?
    ensures Key(SplitKey(k).value) == k <==> Canonical(k[LastDash(k).value + 1..])
  {
    var i := LastDash(k).value;
    var tail, tp := k[i + 1..], SplitKey(k).value;
    assert k == k[..i] + "-" + tail;
    DigitsCanonical(tp.id);
    if Canonical(tail) { DigitsOfValue(tail); }
    if Key(tp) == k { assert Key(tp)[i + 1..] == Digits(tp.id); }
  }
}
