/** storage.py: the partition table and its files. */
module Storage {
  import opened Wrappers
  import opened Json
  import opened Library
  import opened LogText
  import opened LogSpec
  import opened Keys
  import opened Compression
  import opened PartitionLog
  import opened StorageSpec

  class Storage {
    const env: Env
    const disk: Disk
    const cfg: Config
    var partitions: map<TopicPartition, Partition>
    /** The open partitions as values. */
    ghost var imgs: Images

    /** The partition objects are this store's own, one file each, and look as `imgs` says. */
    ghost predicate Owned()
      reads this, disk, partitions.Values
    {
      && cfg.numPartitions > 0
      && imgs.Keys == partitions.Keys
      && (forall tp :: tp in partitions ==> Shows(partitions[tp], tp, imgs[tp]))
    }

    ghost predicate Shows(p: Partition, tp: TopicPartition, img: Image)
      reads p, disk
    {
      p.env == env && p.tp == tp && p.disk == disk && p.Exists() && p.View() == img
    }

    /** Every open partition has its file, and no other partition has one. */
    ghost predicate Valid()
      reads this, disk, partitions.Values
    {
      Owned() && OnDisk(disk.files, imgs)
    }

    constructor (env: Env, disk: Disk, cfg: Config)
      requires cfg.numPartitions > 0
      ensures this.env == env && this.disk == disk && this.cfg == cfg && partitions == map[] && imgs == map[]
    {
      this.env, this.disk, this.cfg, partitions, imgs := env, disk, cfg, map[], map[];
    }

    /** Opens one partition and enters it in the table; false when opening raises. */
    method Enter(tp: TopicPartition) returns (ok: bool)
      requires Owned()
      modifies this, disk
      ensures disk.files == Touch(old(disk.files), FileName(tp))
      ensures ok <==> ScanOf(env)(disk.files[FileName(tp)]).Some?
      ensures !ok ==> partitions == old(partitions)
      ensures ok ==> Owned() && tp in imgs && ScanOf(env)(imgs[tp].text) == Some(imgs[tp].next)
      ensures ok ==> imgs == old(imgs)[tp := imgs[tp]]
      ensures ok ==> fresh(partitions[tp]) && partitions == old(partitions)[tp := partitions[tp]]
    {
      hide FileName, Recovered, FileEntries;
      var p := OpenPartition(env, tp, disk);
      ok := p != null;
      if ok {
        partitions := partitions[tp := p];
        imgs := imgs[tp := p.View()];
        forall tp' | tp' in partitions ensures Shows(partitions[tp'], tp', imgs[tp']) {
          FileNamesDiffer(tp, tp');
        }
      }
    }

    /** Handles one name of the directory that start-up found as `files`. */
    method LoadName(name: string, ghost files: map<string, string>, ghost names: set<string>) returns (ok: bool)
      requires Owned() && RebuiltFrom(ScanOf(env), files, names, disk.files, imgs)
      modifies this, disk
      ensures ok ==> Owned() && RebuiltFrom(ScanOf(env), files, names + {name}, disk.files, imgs)
      ensures !ok <==> SplitFileName(name).Some? && Fails(ScanOf(env), files, SplitFileName(name).value)
    {
      hide FileName, SplitFileName, Recovered, FileEntries, RebuiltFrom;
      ghost var (before, was) := (disk.files, imgs);
      match SplitFileName(name)
      case None =>
        RebuiltSkip(ScanOf(env), files, names, before, was, name);
        return true;
      case Some(tp) =>
        RebuiltFails(ScanOf(env), files, names, before, was, tp);
        ok := Enter(tp);
        if ok { RebuiltStep(ScanOf(env), files, names, before, was, name, imgs[tp]); }
    }

    /** Discovers and opens the partitions on disk; false when one of them fails to open. */
    method Load() returns (ok: bool)
      requires partitions == map[] && imgs == map[] && cfg.numPartitions > 0
      modifies this, disk
      ensures ok ==> Valid() && Rebuilt(ScanOf(env), old(disk.files), disk.files, imgs)
      ensures !ok <==> exists tp :: tp in Discovered(old(disk.files)) && Fails(ScanOf(env), old(disk.files), tp)
    {
      hide FileName, SplitFileName, DiscoveredIn, RebuiltFrom, Fails, Recovered, FileEntries, Shows, OnDisk;
      ghost var (files, names) := (disk.files, {});
      var pending := disk.files.Keys;
      RebuiltStart(ScanOf(env), files);
      while pending != {}
        invariant names + pending == files.Keys && Owned()
        invariant RebuiltFrom(ScanOf(env), files, names, disk.files, imgs)
        decreases |pending|
      {
        var name :| name in pending;
        ok := LoadName(name, files, names);
        if !ok {
          DiscoveredHas(files, name, SplitFileName(name).value);
          return;
        }
        pending := pending - {name};
        names := names + {name};
      }
      assert names == files.Keys;
      RebuiltEnd(ScanOf(env), files, disk.files, imgs);
      RebuiltOnDisk(ScanOf(env), files, disk.files, imgs);
      return true;
    }

    /** An existing partition, or a new empty one. */
    method GetPartition(tp: TopicPartition) returns (p: Partition)
      requires Valid() && '/' !in tp.topic
      modifies this, disk
      ensures Valid() && imgs == old(imgs)[tp := Get(old(imgs), tp)]
      ensures partitions == old(partitions)[tp := p]
      ensures if tp in old(partitions) then p == old(partitions)[tp] else fresh(p)
      ensures fresh(partitions.Values - old(partitions.Values))
    {
      hide FileName, Recovered, FileEntries, OnDisk;
      if tp !in partitions {
        NoFileYet(disk.files, imgs, tp);
        WriteOnDisk(disk.files, imgs, tp, Image("", 0));
        EmptyScan(env);
        var ok := Enter(tp);
      }
      p := partitions[tp];
    }

    /** Appends to an open partition. */
    method AppendTo(p: Partition, tp: TopicPartition, message: Json, offset: Option<int>) returns (o: int)
      requires Valid() && tp in partitions && p == partitions[tp]
      modifies this`imgs, disk, p
      ensures Valid() && imgs == old(imgs)[tp := Appended(env, old(imgs)[tp], message, offset, cfg.setting)]
      ensures o == ReturnedOffset(old(imgs)[tp], offset)
    {
      hide FileName, OnDisk, Appended, ReturnedOffset;
      OnDiskNames(disk.files, imgs, tp);
      ghost var img := Appended(env, imgs[tp], message, offset, cfg.setting);
      WriteOnDisk(disk.files, imgs, tp, img);
      o := p.Append(message, offset, cfg.setting);
      imgs := imgs[tp := img];
      forall tp' | tp' in partitions ensures Shows(partitions[tp'], tp', imgs[tp']) { FileNamesDiffer(tp, tp'); }
    }

    /** Routes and appends, returning partition id and offset. */
    method Append(op: Op) returns (id: nat, o: int)
      requires Valid() && '/' !in op.topic
      modifies this, disk, partitions.Values
      ensures Valid() && imgs == AppendOp(env, cfg, old(imgs), op)
      ensures id == Route(cfg, op).id
      ensures o == ReturnedOffset(Get(old(imgs), Route(cfg, op)), op.offset)
      ensures op.partition.Some? ==> id == op.partition.value
      ensures op.partition.None? ==>
        id < cfg.numPartitions && id == if op.key.Some? then cfg.crc32(op.key.value) % cfg.numPartitions else 0
      ensures var (tp, was) := (TopicPartition(op.topic, id), old(imgs));
        && tp in imgs && imgs == was[tp := imgs[tp]]
        && o == (if op.offset.Some? then op.offset.value else if tp in was then was[tp].next else 0)
      ensures fresh(partitions.Values - old(partitions.Values))
    {
      hide FileName, OnDisk, Appended, ReturnedOffset;
      var tp := Route(cfg, op);
      var p := GetPartition(tp);
      assert tp in old(partitions) ==> p in old(partitions.Values);
      AppendOpIs(env, cfg, old(imgs), op);
      ReturnedIs(Get(old(imgs), tp), op.offset);
      hide AppendOp, Route, Get;
      o := AppendTo(p, tp, op.message, op.offset);
      id := tp.id;
    }

    method ReadAll(tp: TopicPartition) returns (messages: seq<Entry>)
      requires Valid() && '/' !in tp.topic
      modifies this, disk
      ensures Valid() && imgs == old(imgs)[tp := Get(old(imgs), tp)]
      ensures messages == Reading(env, Get(old(imgs), tp).text)
      ensures fresh(partitions.Values - old(partitions.Values))
    {
      hide FileName, OnDisk, FileEntries, Reading;
      var p := GetPartition(tp);
      assert Shows(p, tp, imgs[tp]);
      messages := p.ReadAll();
    }

    /** `total_messages` in the broker's statistics. */
    method TotalMessages() returns (total: nat)
      requires Valid()
      ensures total == Total(imgs)
    {
      hide FileName, OnDisk, Total;
      NothingTotal();
      total := 0;
      var pending := partitions.Keys;
      ghost var rest := imgs;
      while pending != {}
        invariant pending == rest.Keys && pending <= partitions.Keys
        invariant forall tp :: tp in rest ==> rest[tp].next == partitions[tp].nextOffset
        invariant total + Total(rest) == Total(imgs)
        decreases |pending|
      {
        var tp :| tp in pending;
        TotalRemove(rest, tp);
        rest := rest - {tp};
        total := total + partitions[tp].nextOffset;
        pending := pending - {tp};
      }
    }
  }

  lemma AppendOpIs(env: Env, cfg: Config, imgs: Images, op: Op)
    requires cfg.numPartitions > 0
    ensures var (tp, before) := (Route(cfg, op), imgs[Route(cfg, op) := Get(imgs, Route(cfg, op))]);
      AppendOp(env, cfg, imgs, op) == before[tp := Appended(env, before[tp], op.message, op.offset, cfg.setting)]
  {
    hide Appended;
  }

  lemma HasPartitions(store: Storage)
    requires store.Valid()
    ensures store.cfg.numPartitions > 0
  {
  }

  lemma NothingTotal()
    ensures Total(map[]) == 0
  {
  }

  lemma OnDiskNames(files: map<string, string>, imgs: Images, tp: TopicPartition)
    requires OnDisk(files, imgs) && tp in imgs
    ensures '/' !in tp.topic
  {
  }

  lemma NoFileYet(files: map<string, string>, imgs: Images, tp: TopicPartition)
    requires OnDisk(files, imgs) && tp !in imgs && '/' !in tp.topic
    ensures FileName(tp) !in files
  {
  }

  lemma FileNamesDiffer(a: TopicPartition, b: TopicPartition)
    ensures FileName(a) == FileName(b) <==> a == b
  {
    KeyInjective(a, b);
  }

  lemma DiscoveredHas(files: map<string, string>, name: string, tp: TopicPartition)
    requires name in files && SplitFileName(name) == Some(tp)
    ensures tp in Discovered(files)
  {
  }
}
