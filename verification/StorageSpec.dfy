/** storage.py on values: routing, appending, and rebuilding the store from its files. */
module StorageSpec {
  import opened Wrappers
  import opened Json
  import opened Library
  import opened LogText
  import opened LogSpec
  import opened Keys
  import opened Compression
  import opened PartitionLog

  datatype Config = Config(numPartitions: nat, setting: Setting, crc32: string -> nat)

  /** The open partitions: each one's file text and next offset. */
  type Images = map<TopicPartition, Image>

  /** One call of `Storage.append`. */
  datatype Op = Op(topic: string, message: Json, key: Option<string>, partition: Option<nat>, offset: Option<int>)

  function Route(cfg: Config, op: Op): TopicPartition
    requires cfg.numPartitions > 0
  {
    TopicPartition(op.topic,
      match op.partition
      case Some(p) => p
      case None => match op.key case Some(k) => cfg.crc32(k) % cfg.numPartitions case None => 0)
  }

  /** A partition that is not open yet has no file either: it starts empty. */
  function Get(imgs: Images, tp: TopicPartition): Image {
    if tp in imgs then imgs[tp] else Image("", 0)
  }

  function AppendOp(env: Env, cfg: Config, imgs: Images, op: Op): Images
    requires cfg.numPartitions > 0
  {
    var tp := Route(cfg, op);
    imgs[tp := Appended(env, Get(imgs, tp), op.message, op.offset, cfg.setting)]
  }

  // ----- what every append keeps -----

  ghost predicate Consistent(env: Env, imgs: Images) {
    forall tp :: tp in imgs ==> Synced(env, imgs[tp])
  }

  ghost function Logs(env: Env, imgs: Images, tp: TopicPartition): Log<Json>
    requires Consistent(env, imgs)
  {
    EmptySynced(env);
    LogOf(env, Get(imgs, tp).text)
  }

  /** The partition's file gives records at natural offsets, in any order, and may end in the middle of a line. */
  ghost predicate Legible(env: Env, imgs: Images, tp: TopicPartition) { Natural(FileEntries(env, Get(imgs, tp).text)) }

  ghost function LogIn(env: Env, imgs: Images, tp: TopicPartition): Log<Json>
    requires Legible(env, imgs, tp)
  {
    LogOf(env, Get(imgs, tp).text)
  }

  lemma ConsistentLegible(env: Env, imgs: Images, tp: TopicPartition)
    requires Consistent(env, imgs)
    ensures Legible(env, imgs, tp) && LogIn(env, imgs, tp) == Logs(env, imgs, tp)
  {
    hide LogOf, FileEntries;
    EmptySynced(env);
  }

  /** Opening empty partitions changes no file's text or next offset. */
  ghost predicate SameFiles(imgs: Images, imgs': Images) {
    imgs.Keys <= imgs'.Keys && forall tp :: Get(imgs', tp) == Get(imgs, tp)
  }

  lemma SameFilesHere(imgs: Images)
    ensures SameFiles(imgs, imgs)
  {
  }

  lemma SameFilesOnward(a: Images, b: Images, c: Images)
    requires SameFiles(a, b) && SameFiles(b, c)
    ensures SameFiles(a, c)
  {
    hide Get;
  }

  lemma EmptySynced(env: Env)
    ensures Synced(env, Image("", 0)) && LogOf(env, "") == []
  {
    EntriesOne(env, "");
  }

  lemma ConsistentUpdate(env: Env, imgs: Images, tp: TopicPartition, img: Image)
    requires Consistent(env, imgs) && Synced(env, img)
    ensures Consistent(env, imgs[tp := img])
  {
    var imgs' := imgs[tp := img];
    forall tp' | tp' in imgs' ensures Synced(env, imgs'[tp']) {
      assert tp' != tp ==> imgs'[tp'] == imgs[tp'];
    }
  }

  /** One append puts one record on one partition's log, and leaves the rest of the store alone. */
  lemma AppendOpRefinesPut(env: Env, cfg: Config, imgs: Images, op: Op)
    requires Good(env) && cfg.numPartitions > 0 && Consistent(env, imgs)
    ensures
      var (imgs', tp) := (AppendOp(env, cfg, imgs, op), Route(cfg, op));
      && Consistent(env, imgs')
      && Logs(env, imgs', tp) == Put(Logs(env, imgs, tp), op.offset, Visible(env, op.message, cfg.setting))
      && (forall tp' :: tp' != tp ==> Logs(env, imgs', tp') == Logs(env, imgs, tp'))
  {
    hide Synced, LogOf, Appended, Put, Visible;
    var tp := Route(cfg, op);
    assert Synced(env, Get(imgs, tp)) by { EmptySynced(env); }
    AppendRefinesPut(env, Get(imgs, tp), op.message, op.offset, cfg.setting);
    ConsistentUpdate(env, imgs, tp, AppendOp(env, cfg, imgs, op)[tp]);
    forall tp' | tp' != tp ensures Get(AppendOp(env, cfg, imgs, op), tp') == Get(imgs, tp') { }
  }

  lemma NextIsLogNext(env: Env, imgs: Images, tp: TopicPartition)
    requires Consistent(env, imgs)
    ensures Increasing(Logs(env, imgs, tp)) && Next(Logs(env, imgs, tp)) == Get(imgs, tp).next
  {
    EmptySynced(env);
    SyncedNext(env, Get(imgs, tp));
  }

  // ----- start-up and restart -----

  function DiscoveredIn(names: set<string>): set<TopicPartition> {
    set name | name in names && SplitFileName(name).Some? :: SplitFileName(name).value
  }

  function Discovered(files: map<string, string>): set<TopicPartition> { DiscoveredIn(files.Keys) }

  function Names(tps: set<TopicPartition>): set<string> { set tp | tp in tps :: FileName(tp) }

  function Touch(files: map<string, string>, name: string): map<string, string> {
    if name in files then files else files[name := ""]
  }

  lemma NamesInsert(tps: set<TopicPartition>, tp: TopicPartition)
    ensures Names(tps + {tp}) == Names(tps) + {FileName(tp)}
  {
  }

  ghost predicate Touched(files: map<string, string>, names: set<string>, files': map<string, string>) {
    && files'.Keys == files.Keys + names
    && (forall name :: name in files' ==> files'[name] == if name in files then files[name] else "")
  }

  lemma TouchedNothing(files: map<string, string>, names: set<string>, files': map<string, string>)
    requires names <= files.Keys
    ensures Touched(files, names, files') <==> files' == files
  {
    assert files.Keys + names == files.Keys;
  }

  /** The directory after start-up, which creates a file for each discovered partition that has none of its own
      (a name such as t-007.jsonl stands for partition 7). */
  ghost predicate Opened(files: map<string, string>, files': map<string, string>) {
    Touched(files, Names(Discovered(files)), files')
  }

  /** The next offset the start-up scan computes from a file's text. */
  type Scan = string -> Option<int>

  function ScanOf(env: Env): Scan { text => Recovered(FileEntries(env, text)) }

  /** Each open partition's next offset is the one its file gives. */
  ghost predicate Agrees(scan: Scan, imgs: Images) {
    forall tp :: tp in imgs ==> scan(imgs[tp].text) == Some(imgs[tp].next)
  }

  /** What start-up makes of a directory, with the given names discovered so far. */
  ghost predicate RebuiltFrom(
    scan: Scan, files: map<string, string>, names: set<string>, files': map<string, string>, imgs: Images)
  {
    && Touched(files, Names(DiscoveredIn(names)), files')
    && imgs.Keys == DiscoveredIn(names)
    && TextsOf(files', imgs)
    && Agrees(scan, imgs)
  }

  ghost predicate Rebuilt(scan: Scan, files: map<string, string>, files': map<string, string>, imgs: Images) {
    RebuiltFrom(scan, files, files.Keys, files', imgs)
  }

  ghost predicate TextsOf(files: map<string, string>, imgs: Images) {
    forall tp :: tp in imgs ==> (FileName(tp) in files && files[FileName(tp)] == imgs[tp].text)
  }

  /** Start-up raises on this partition: its file holds a record with a non-numeric offset. */
  predicate Fails(scan: Scan, files: map<string, string>, tp: TopicPartition) {
    scan(Touch(files, FileName(tp))[FileName(tp)]).None?
  }

  lemma RebuiltStart(scan: Scan, files: map<string, string>)
    ensures RebuiltFrom(scan, files, {}, files, map[])
  {
  }

  lemma DiscoveredOneMore(names: set<string>, name: string)
    ensures DiscoveredIn(names + {name}) ==
      DiscoveredIn(names) + match SplitFileName(name) case None => {} case Some(tp) => {tp}
  {
  }

  lemma RebuiltSkip(
    scan: Scan, files: map<string, string>, names: set<string>, files': map<string, string>, imgs: Images, name: string)
    requires RebuiltFrom(scan, files, names, files', imgs) && SplitFileName(name) == None
    ensures RebuiltFrom(scan, files, names + {name}, files', imgs)
  {
    DiscoveredOneMore(names, name);
  }

  lemma TouchedOneMore(
    files: map<string, string>, tps: set<TopicPartition>, tp: TopicPartition, before: map<string, string>)
    requires Touched(files, Names(tps), before)
    ensures Touched(files, Names(tps + {tp}), Touch(before, FileName(tp)))
    ensures Touch(before, FileName(tp))[FileName(tp)] == Touch(files, FileName(tp))[FileName(tp)]
  {
    NamesInsert(tps, tp);
  }

  lemma TextsStep(before: map<string, string>, imgs: Images, tp: TopicPartition, img: Image)
    requires TextsOf(before, imgs) && img.text == Touch(before, FileName(tp))[FileName(tp)]
    ensures TextsOf(Touch(before, FileName(tp)), imgs[tp := img])
  {
    var (files', imgs') := (Touch(before, FileName(tp)), imgs[tp := img]);
    forall tp' | tp' in imgs' ensures FileName(tp') in files' && files'[FileName(tp')] == imgs'[tp'].text { }
  }

  lemma RebuiltStep(
    scan: Scan, files: map<string, string>, names: set<string>, before: map<string, string>, imgs: Images,
    name: string, img: Image)
    requires RebuiltFrom(scan, files, names, before, imgs) && SplitFileName(name).Some?
    requires img.text == Touch(before, FileName(SplitFileName(name).value))[FileName(SplitFileName(name).value)]
    requires scan(img.text) == Some(img.next)
    ensures var tp := SplitFileName(name).value;
      RebuiltFrom(scan, files, names + {name}, Touch(before, FileName(tp)), imgs[tp := img])
  {
    hide FileName, SplitFileName, Names, DiscoveredIn;
    var tp := SplitFileName(name).value;
    DiscoveredOneMore(names, name);
    TouchedOneMore(files, DiscoveredIn(names), tp, before);
    TextsStep(before, imgs, tp, img);
  }

  /** An open partition already discovered fails again only if it failed before. */
  lemma RebuiltFails(
    scan: Scan, files: map<string, string>, names: set<string>, before: map<string, string>, imgs: Images,
      tp: TopicPartition)
    requires RebuiltFrom(scan, files, names, before, imgs)
    ensures Touch(before, FileName(tp))[FileName(tp)] == Touch(files, FileName(tp))[FileName(tp)]
  {
    TouchedOneMore(files, DiscoveredIn(names), tp, before);
  }

  lemma RebuiltEnd(scan: Scan, files: map<string, string>, files': map<string, string>, imgs: Images)
    requires Rebuilt(scan, files, files', imgs)
    ensures forall tp :: tp in Discovered(files) ==> !Fails(scan, files, tp)
  {
    forall tp | tp in Discovered(files) ensures !Fails(scan, files, tp) {
      RebuiltFails(scan, files, files.Keys, files', imgs, tp);
      assert tp in imgs;
    }
  }

  /** Every open partition has its file, and no other partition has one; whatever else is in the directory stays
      there. */
  ghost predicate OnDisk(files: map<string, string>, imgs: Images) {
    && TextsOf(files, imgs)
    && (forall tp :: tp in imgs ==> '/' !in tp.topic)
    && (forall tp :: tp !in imgs && '/' !in tp.topic ==> FileName(tp) !in files)
  }

  lemma DiscoversOpen(files: map<string, string>, imgs: Images)
    requires OnDisk(files, imgs)
    ensures imgs.Keys <= Discovered(files)
  {
    hide FileName, SplitFileName;
    forall tp | tp in imgs ensures tp in Discovered(files) {
      FileNameRoundTrip(tp);
      assert FileName(tp) in files;
    }
  }

  lemma DiscoveredHere(files: map<string, string>, tp: TopicPartition)
    requires tp in Discovered(files)
    ensures '/' !in tp.topic
  {
    hide FileName, Key;
    var name :| name in files && SplitFileName(name) == Some(tp);
    hide SplitFileName;
    SplitIsHere(name);
  }

  lemma SplitIsHere(name: string)
    requires SplitFileName(name).Some?
    ensures '/' !in SplitFileName(name).value.topic
  {
    var tp := SplitFileName(name).value;
    assert tp.topic == name[..|tp.topic|];
    forall i | 0 <= i < |tp.topic| ensures tp.topic[i] != '/' { assert tp.topic[i] == name[i] && name[i] in name; }
  }

  lemma ConsistentAgrees(env: Env, imgs: Images)
    requires Consistent(env, imgs)
    ensures Agrees(ScanOf(env), imgs)
  {
    forall tp | tp in imgs ensures ScanOf(env)(imgs[tp].text) == Some(imgs[tp].next) {
      assert Synced(env, imgs[tp]);
    }
  }

  /** What start-up finds for one partition is what the store had, or an empty partition it did not have. */
  lemma RestartFinds(
    scan: Scan, files: map<string, string>, imgs: Images, files': map<string, string>, imgs': Images,
      tp: TopicPartition)
    requires Agrees(scan, imgs) && OnDisk(files, imgs) && scan("") == Some(0) && Rebuilt(scan, files, files', imgs')
    ensures Get(imgs', tp) == Get(imgs, tp)
  {
    hide FileName, Names, SplitFileName, DiscoveredIn;
    DiscoversOpen(files, imgs);
    if tp in imgs' {
      DiscoveredHere(files, tp);
      assert tp in imgs ==> FileName(tp) in files && files[FileName(tp)] == imgs[tp].text;
    }
  }

  lemma RestartBuilds(scan: Scan, files: map<string, string>, imgs: Images, files': map<string, string>, imgs': Images)
    requires Agrees(scan, imgs) && OnDisk(files, imgs) && scan("") == Some(0)
    requires Opened(files, files') && imgs'.Keys == Discovered(files) && forall tp :: Get(imgs', tp) == Get(imgs, tp)
    ensures Rebuilt(scan, files, files', imgs')
  {
    hide FileName, SplitFileName, DiscoveredIn;
    forall tp | tp in imgs'
      ensures FileName(tp) in files' && files'[FileName(tp)] == imgs'[tp].text
        && scan(imgs'[tp].text) == Some(imgs'[tp].next)
    {
      DiscoveredHere(files, tp);
      assert Get(imgs', tp) == Get(imgs, tp);
      assert FileName(tp) in Names(Discovered(files));
    }
  }

  /** A restart gives, for every partition, the text and next offset it had, and nothing else: it opens exactly the
      partitions named in the directory, those without a file of their own as empty ones. */
  lemma RestartRefines(scan: Scan, files: map<string, string>, imgs: Images, files': map<string, string>, imgs': Images)
    requires Agrees(scan, imgs) && OnDisk(files, imgs) && scan("") == Some(0)
    ensures Rebuilt(scan, files, files', imgs') <==>
      Opened(files, files') && imgs'.Keys == Discovered(files) && forall tp :: Get(imgs', tp) == Get(imgs, tp)
  {
    if Rebuilt(scan, files, files', imgs') {
      forall tp ensures Get(imgs', tp) == Get(imgs, tp) { RestartFinds(scan, files, imgs, files', imgs', tp); }
    } else if Opened(files, files') && imgs'.Keys == Discovered(files) && forall tp :: Get(imgs', tp) == Get(imgs, tp) {
      RestartBuilds(scan, files, imgs, files', imgs');
    }
  }

  /** When the directory names no partition that was not open, that is the same directory and the same store. */
  lemma RestartIsExact(scan: Scan, files: map<string, string>, imgs: Images, files': map<string, string>, imgs': Images)
    requires Agrees(scan, imgs) && OnDisk(files, imgs) && scan("") == Some(0) && Discovered(files) == imgs.Keys
    ensures Rebuilt(scan, files, files', imgs') <==> files' == files && imgs' == imgs
  {
    hide FileName, DiscoveredIn, Rebuilt, Agrees;
    RestartRefines(scan, files, imgs, files', imgs');
    forall name | name in Names(imgs.Keys) ensures name in files {
      var tp :| tp in imgs && FileName(tp) == name;
    }
    TouchedNothing(files, Names(Discovered(files)), files');
    SameGets(imgs, imgs');
  }

  lemma SameGets(a: Images, b: Images)
    ensures a.Keys == b.Keys && (forall tp :: Get(a, tp) == Get(b, tp)) <==> a == b
  {
    if a.Keys == b.Keys && forall tp :: Get(a, tp) == Get(b, tp) {
      forall tp | tp in a ensures tp in b && a[tp] == b[tp] { assert Get(a, tp) == Get(b, tp); }
      assert a == b;
    }
  }

  /** After a start-up every partition is as the directory says. */
  lemma RebuiltOnDisk(scan: Scan, files: map<string, string>, files': map<string, string>, imgs: Images)
    requires Rebuilt(scan, files, files', imgs)
    ensures OnDisk(files', imgs)
  {
    hide FileName, SplitFileName;
    forall tp | tp in imgs ensures '/' !in tp.topic { DiscoveredHere(files, tp); }
    forall tp | tp !in imgs && '/' !in tp.topic ensures FileName(tp) !in files' {
      FileNameRoundTrip(tp);
      if FileName(tp) in Names(DiscoveredIn(files.Keys)) {
        var tp' :| tp' in DiscoveredIn(files.Keys) && FileName(tp') == FileName(tp);
        KeyInjective(tp, tp');
      }
    }
  }

  /** What the directory looks like after an append to one partition. */
  function Write(files: map<string, string>, tp: TopicPartition, img: Image): map<string, string> {
    files[FileName(tp) := img.text]
  }

  lemma WriteOnDisk(files: map<string, string>, imgs: Images, tp: TopicPartition, img: Image)
    requires OnDisk(files, imgs) && '/' !in tp.topic
    ensures OnDisk(Write(files, tp, img), imgs[tp := img])
  {
    hide FileName;
    var (files', imgs') := (Write(files, tp, img), imgs[tp := img]);
    forall tp' ensures tp' != tp ==> FileName(tp') != FileName(tp) { KeyInjective(tp', tp); }
  }

  // ----- runs -----

  datatype Store = Store(files: map<string, string>, imgs: Images)

  ghost predicate Intact(env: Env, st: Store) { Consistent(env, st.imgs) && OnDisk(st.files, st.imgs) }

  predicate Named(ops: seq<Op>) { forall i :: 0 <= i < |ops| ==> '/' !in ops[i].topic }

  /** The directory and the open partitions after a sequence of appends. */
  ghost function RunFrom(env: Env, cfg: Config, st: Store, ops: seq<Op>): Store
    requires cfg.numPartitions > 0
  {
    if ops == [] then st else
      var (before, op) := (RunFrom(env, cfg, st, ops[..|ops| - 1]), ops[|ops| - 1]);
      var imgs := AppendOp(env, cfg, before.imgs, op);
      Store(Write(before.files, Route(cfg, op), imgs[Route(cfg, op)]), imgs)
  }

  /** From an empty directory. */
  ghost function Run(env: Env, cfg: Config, ops: seq<Op>): Store
    requires cfg.numPartitions > 0
  {
    RunFrom(env, cfg, Store(map[], map[]), ops)
  }

  lemma {:induction false} RunIntact(env: Env, cfg: Config, start: Store, ops: seq<Op>)
    requires Good(env) && cfg.numPartitions > 0 && Named(ops) && Intact(env, start)
    ensures Intact(env, RunFrom(env, cfg, start, ops))
  {
    hide OnDisk, Consistent;
    if ops != [] {
      var (st, op) := (RunFrom(env, cfg, start, ops[..|ops| - 1]), ops[|ops| - 1]);
      RunIntact(env, cfg, start, ops[..|ops| - 1]);
      AppendOpRefinesPut(env, cfg, st.imgs, op);
      WriteOnDisk(st.files, st.imgs, Route(cfg, op), AppendOp(env, cfg, st.imgs, op)[Route(cfg, op)]);
    }
  }

  /** After any appends over any topics and partitions, with or without explicit offsets, on any intact store, stray
      files in its directory included: a restart gives every partition the text and next offset it had. */
  lemma RestartAfterAnyAppends(
    env: Env, cfg: Config, start: Store, ops: seq<Op>, files': map<string, string>, imgs': Images)
    requires Good(env) && cfg.numPartitions > 0 && Named(ops) && Intact(env, start)
    ensures var st := RunFrom(env, cfg, start, ops);
      Rebuilt(ScanOf(env), st.files, files', imgs') <==>
        Opened(st.files, files') && imgs'.Keys == Discovered(st.files)
          && forall tp :: Get(imgs', tp) == Get(st.imgs, tp)
  {
    hide OnDisk, Rebuilt, Opened, Consistent, Synced;
    var st := RunFrom(env, cfg, start, ops);
    RunIntact(env, cfg, start, ops);
    ConsistentAgrees(env, st.imgs);
    EmptyScan(env);
    RestartRefines(ScanOf(env), st.files, st.imgs, files', imgs');
  }

  lemma EmptyScan(env: Env)
    ensures ScanOf(env)("") == Some(0)
  {
    EmptySynced(env);
  }

  // ----- history splits over partitions -----

  /** Publishes: no explicit partition or offset. */
  predicate ArePublishes(ops: seq<Op>) {
    forall i :: 0 <= i < |ops| ==> ops[i].partition.None? && ops[i].offset.None?
  }

  /** The payloads routed to one partition, in publish order. */
  function Routed(env: Env, cfg: Config, ops: seq<Op>, tp: TopicPartition): seq<Json>
    requires cfg.numPartitions > 0
  {
    if ops == [] then [] else
      var op := ops[|ops| - 1];
      Routed(env, cfg, ops[..|ops| - 1], tp) +
        if Route(cfg, op) == tp then [Visible(env, op.message, cfg.setting)] else []
  }

  ghost predicate Holds(log: Log<Json>, payloads: seq<Json>) {
    |log| == |payloads| && forall i :: 0 <= i < |log| ==> log[i] == Rec(i, payloads[i])
  }

  lemma HoldsOneMore(log: Log<Json>, payloads: seq<Json>, p: Json)
    requires Holds(log, payloads)
    ensures Holds(Put(log, None, p), payloads + [p])
  {
  }

  lemma EmptyIntact(env: Env)
    ensures Intact(env, Store(map[], map[]))
  {
  }

  lemma RunStep(env: Env, cfg: Config, ops: seq<Op>, tp: TopicPartition)
    requires Good(env) && cfg.numPartitions > 0 && Named(ops) && ops != []
    ensures
      var (imgs, imgs', op) := (Run(env, cfg, ops[..|ops| - 1]).imgs, Run(env, cfg, ops).imgs, ops[|ops| - 1]);
      && Consistent(env, imgs) && Consistent(env, imgs')
      && Logs(env, imgs', tp) ==
           if Route(cfg, op) == tp then Put(Logs(env, imgs, tp), op.offset, Visible(env, op.message, cfg.setting))
           else Logs(env, imgs, tp)
  {
    EmptyIntact(env);
    RunIntact(env, cfg, Store(map[], map[]), ops[..|ops| - 1]);
    AppendOpRefinesPut(env, cfg, Run(env, cfg, ops[..|ops| - 1]).imgs, ops[|ops| - 1]);
  }

  /** Each partition's log is exactly the publishes routed to it, at offsets 0, 1, 2, ... */
  lemma {:induction false} PartitionSplit(env: Env, cfg: Config, ops: seq<Op>, tp: TopicPartition)
    requires Good(env) && cfg.numPartitions > 0 && Named(ops) && ArePublishes(ops)
    ensures Consistent(env, Run(env, cfg, ops).imgs)
    ensures Holds(Logs(env, Run(env, cfg, ops).imgs, tp), Routed(env, cfg, ops, tp))
  {
    if ops == [] {
      EmptySynced(env);
    } else {
      var front := ops[..|ops| - 1];
      PartitionSplit(env, cfg, front, tp);
      RunStep(env, cfg, ops, tp);
      HoldsOneMore(Logs(env, Run(env, cfg, front).imgs, tp), Routed(env, cfg, front, tp),
        Visible(env, ops[|ops| - 1].message, cfg.setting));
    }
  }

  /** Where in its partition's log the i-th publish lands. */
  function Place(env: Env, cfg: Config, ops: seq<Op>, i: nat): nat
    requires cfg.numPartitions > 0 && i < |ops|
  {
    |Routed(env, cfg, ops[..i], Route(cfg, ops[i]))|
  }

  lemma {:induction false} PlacedInRouted(env: Env, cfg: Config, ops: seq<Op>, i: nat)
    requires cfg.numPartitions > 0 && i < |ops|
    ensures var (all, p) := (Routed(env, cfg, ops, Route(cfg, ops[i])), Place(env, cfg, ops, i));
      p < |all| && all[p] == Visible(env, ops[i].message, cfg.setting)
    decreases |ops|
  {
    hide Visible, Route;
    var front := ops[..|ops| - 1];
    if i < |front| {
      assert front[..i] == ops[..i];
      PlacedInRouted(env, cfg, front, i);
    } else {
      assert ops[..i] == front;
    }
  }

  lemma {:induction false} RoutedGrows(env: Env, cfg: Config, ops: seq<Op>, i: nat, tp: TopicPartition)
    requires cfg.numPartitions > 0 && i <= |ops|
    ensures |Routed(env, cfg, ops[..i], tp)| <= |Routed(env, cfg, ops, tp)|
    decreases |ops|
  {
    hide Visible, Route;
    if i < |ops| {
      var front := ops[..|ops| - 1];
      assert front[..i] == ops[..i];
      RoutedGrows(env, cfg, front, i, tp);
    } else {
      assert ops[..i] == ops;
    }
  }

  lemma PlacesInOrder(env: Env, cfg: Config, ops: seq<Op>, i: nat, j: nat)
    requires cfg.numPartitions > 0 && i < j < |ops| && Route(cfg, ops[i]) == Route(cfg, ops[j])
    ensures Place(env, cfg, ops, i) < Place(env, cfg, ops, j)
  {
    hide Visible, Route;
    var (tp, before) := (Route(cfg, ops[i]), ops[..i + 1]);
    assert before[..i] == ops[..i] && ops[..j][..i + 1] == before;
    RoutedGrows(env, cfg, ops[..j], i + 1, tp);
  }

  /** Publishes with the same topic and key keep their order: they are records of one partition, at ascending
      offsets. */
  lemma SameKeyInOrder(env: Env, cfg: Config, ops: seq<Op>, i: nat, j: nat)
    requires Good(env) && cfg.numPartitions > 0 && Named(ops) && ArePublishes(ops)
    requires i < j < |ops| && ops[i].topic == ops[j].topic && ops[i].key == ops[j].key
    ensures Consistent(env, Run(env, cfg, ops).imgs)
    ensures var log := Logs(env, Run(env, cfg, ops).imgs, Route(cfg, ops[i]));
      var (a, b) := (Place(env, cfg, ops, i), Place(env, cfg, ops, j));
      && a < b < |log|
      && log[a] == Rec(a, Visible(env, ops[i].message, cfg.setting))
      && log[b] == Rec(b, Visible(env, ops[j].message, cfg.setting))
  {
    hide Visible, Logs, Run, Routed, Place, Consistent;
    PartitionSplit(env, cfg, ops, Route(cfg, ops[i]));
    PlacesInOrder(env, cfg, ops, i, j);
    PlacedInRouted(env, cfg, ops, i);
    PlacedInRouted(env, cfg, ops, j);
  }

  // ----- totals -----

  ghost function Total(m: Images): nat
    decreases |m|
  {
    if m == map[] then 0 else
      var k :| k in m;
      m[k].next + Total(m - {k})
  }

  lemma {:induction false} TotalRemove(m: Images, k: TopicPartition)
    requires k in m
    ensures Total(m) == m[k].next + Total(m - {k})
    decreases |m|
  {
    var j :| j in m && Total(m) == m[j].next + Total(m - {j});
    if j != k {
      TotalRemove(m - {j}, k);
      TotalRemove(m - {k}, j);
      assert m - {j} - {k} == m - {k} - {j};
    }
  }

  lemma TotalUpdate(m: Images, k: TopicPartition, img: Image)
    ensures Total(m[k := img]) == Total(m) - Get(m, k).next + img.next
  {
    TotalRemove(m[k := img], k);
    assert m[k := img] - {k} == m - {k};
    if k in m { TotalRemove(m, k); } else { assert m - {k} == m; }
  }

  /** The reported total of next offsets counts the publishes. */
  lemma {:induction false} TotalCountsPublishes(env: Env, cfg: Config, ops: seq<Op>)
    requires cfg.numPartitions > 0 && ArePublishes(ops)
    ensures Total(Run(env, cfg, ops).imgs) == |ops|
  {
    if ops != [] {
      var (front, op) := (ops[..|ops| - 1], ops[|ops| - 1]);
      var (imgs, tp) := (Run(env, cfg, front).imgs, Route(cfg, op));
      TotalCountsPublishes(env, cfg, front);
      TotalUpdate(imgs, tp, Appended(env, Get(imgs, tp), op.message, op.offset, cfg.setting));
    }
  }
}
