/**
 * The "dmp" device-mapper proxy target: its per-request map step, which
 * feeds the global statistics and redirects the request to the underlying
 * device, its constructor and destructor, which pair the allocation of the
 * instance record and the reference on the underlying device, and the
 * statistics report.
 *
 * Calls are modelled one at a time. The kernel's allocator and device table
 * are a Host object whose ghost state records which instance records are
 * allocated and which device references are held.
 */
module Dmp {
  import opened Wrappers
  import opened Stats
  import opened Offset

  /** An opaque handle on a block device. */
  type DeviceId = nat

  const EINVAL := 22
  const ENOMEM := 12

  /** What the map step returns to say "forward the request to its new target". */
  const DM_MAPIO_REMAPPED := 1

  const ErrArgCount := "dm-dmp: Invalid argument count. Expected 2 (device_path, offset)"
  const ErrAlloc := "dm-dmp: Cannot allocate dmp_target context"
  const ErrOffset := "dm-dmp: Invalid device sector (offset)"
  const ErrLookup := "dm-dmp: Device lookup failed"

  /** The process-wide counters shared by all instances. */
  class GlobalStats {
    var readReqs: nat
    var writeReqs: nat
    var readBytes: nat
    var writeBytes: nat

    /** Every request accounted so far, in order. */
    ghost var history: seq<Request>

    function Snapshot(): Counters
      reads this
    {
      Counters(readReqs, writeReqs, readBytes, writeBytes)
    }

    /** The counters hold exactly the accounting of the history. */
    ghost predicate Valid()
      reads this
    {
      Snapshot() == Replay(history)
    }

    /** Module initialisation: all four counters start at zero. */
    constructor ()
      ensures Valid() && history == []
      ensures readReqs == 0 && writeReqs == 0 && readBytes == 0 && writeBytes == 0
    {
      readReqs, writeReqs, readBytes, writeBytes := 0, 0, 0, 0;
      history := [];
    }
  }

  /** A block I/O request as the map step sees it. */
  class Bio {
    const dir: Direction
    /** bi_iter.bi_size, in bytes */
    const size: nat
    /** bi_iter.bi_sector */
    var sector: nat
    /** the device the request is addressed to */
    var bdev: DeviceId

    constructor (dir: Direction, size: nat, sector: nat, bdev: DeviceId)
      ensures this.dir == dir && this.size == size && this.sector == sector && this.bdev == bdev
    {
      this.dir, this.size, this.sector, this.bdev := dir, size, sector, bdev;
    }
  }

  /** The instance record: the underlying device and the start offset. */
  class DmpTarget {
    var dev: DeviceId
    var start: nat
  }

  /** The device-mapper target an instance is created on. */
  class Target {
    /** ti->private: the instance record, once construction succeeded */
    var context: DmpTarget?
    /** ti->error: the reason of the last failed construction */
    var error: string

    constructor ()
      ensures context == null && error == ""
    {
      context, error := null, "";
    }
  }

  /** The kernel services the constructor and destructor use. */
  class Host {
    /** The devices that a device path resolves to. */
    const devices: map<string, DeviceId>
    /** Instance records allocated and not yet freed. */
    ghost var live: set<DmpTarget>
    /** Device references taken and not yet put. */
    ghost var held: multiset<DeviceId>

    constructor (devices: map<string, DeviceId>)
      ensures this.devices == devices && live == {} && held == multiset{}
    {
      this.devices := devices;
      live, held := {}, multiset{};
    }

    /** kmalloc of an instance record; `ok` says whether memory was available. */
    method Alloc(ok: bool) returns (p: DmpTarget?)
      modifies this
      ensures ok <==> p != null
      ensures p != null ==> fresh(p) && live == old(live) + {p}
      ensures p == null ==> live == old(live)
      ensures held == old(held)
    {
      if ok {
        p := new DmpTarget;
        live := live + {p};
      } else {
        p := null;
      }
    }

    /** kfree of an instance record. */
    method Free(p: DmpTarget)
      requires p in live
      modifies this
      ensures live == old(live) - {p} && held == old(held)
    {
      live := live - {p};
    }

    /** dm_get_device: resolve a path and take a reference on the device. */
    method GetDevice(path: string) returns (dev: Option<DeviceId>)
      modifies this
      ensures path in devices ==> dev == Some(devices[path]) && held == old(held) + multiset{devices[path]}
      ensures path !in devices ==> dev == None && held == old(held)
      ensures live == old(live)
    {
      if path in devices {
        dev := Some(devices[path]);
        held := held + multiset{devices[path]};
      } else {
        dev := None;
      }
    }

    /** dm_put_device: drop a reference taken by GetDevice. */
    method PutDevice(dev: DeviceId)
      requires dev in held
      modifies this
      ensures held == old(held) - multiset{dev} && live == old(live)
    {
      held := held - multiset{dev};
    }
  }

  /** An instance whose construction succeeded and which is not destroyed yet. */
  ghost predicate Active(ti: Target, host: Host)
    reads ti, ti.context, host
  {
    ti.context != null && ti.context in host.live && ti.context.dev in host.held
  }

  /**
   * The map step: account the request in the global statistics, send it to
   * the instance's device and let the device-mapper core forward it. The
   * start offset is not applied: the request's sector is left as it was.
   */
  method Map(ti: Target, bio: Bio, stats: GlobalStats) returns (rc: int)
    requires ti.context != null && stats.Valid()
    modifies bio`bdev, stats
    ensures rc == DM_MAPIO_REMAPPED
    ensures bio.bdev == ti.context.dev && bio.sector == old(bio.sector)
    ensures stats.Valid() && stats.history == old(stats.history) + [Request(bio.dir, bio.size)]
    ensures bio.dir == Write ==>
              stats.writeReqs == old(stats.writeReqs) + 1 && stats.writeBytes == old(stats.writeBytes) + bio.size &&
              stats.readReqs == old(stats.readReqs) && stats.readBytes == old(stats.readBytes)
    ensures bio.dir == Read ==>
              stats.readReqs == old(stats.readReqs) + 1 && stats.readBytes == old(stats.readBytes) + bio.size &&
              stats.writeReqs == old(stats.writeReqs) && stats.writeBytes == old(stats.writeBytes)
  {
    var dmp := ti.context;
    var bioSize := bio.size;
    ghost var rq := Request(bio.dir, bioSize);
    ghost var h := stats.history + [rq];
    assert h[..|h| - 1] == stats.history;
    assert Replay(h) == Step(stats.Snapshot(), rq);
    if bio.dir == Write {
      stats.writeReqs := stats.writeReqs + 1;
      stats.writeBytes := stats.writeBytes + bioSize;
    } else {
      stats.readReqs := stats.readReqs + 1;
      stats.readBytes := stats.readBytes + bioSize;
    }
    stats.history := h;
    bio.bdev := dmp.dev;
    rc := DM_MAPIO_REMAPPED;
  }

  /**
   * The constructor: check the argument count, allocate the record, parse
   * the offset and take the device. Every failure after the allocation frees
   * the record, so a failed construction holds nothing.
   */
  method Ctr(ti: Target, argv: seq<string>, host: Host, kmallocOk: bool) returns (rc: int)
    modifies ti, host
    ensures |argv| != 2 ==> rc == -EINVAL && ti.error == ErrArgCount
    ensures |argv| != 2 ==> host.live == old(host.live) && host.held == old(host.held)
    ensures |argv| == 2 && !kmallocOk ==> rc == -ENOMEM && ti.error == ErrAlloc
    ensures |argv| == 2 && kmallocOk && ParseOffset(argv[1]).None? ==> rc == -EINVAL && ti.error == ErrOffset
    ensures |argv| == 2 && kmallocOk && ParseOffset(argv[1]).Some? && argv[0] !in host.devices ==>
              rc == -EINVAL && ti.error == ErrLookup
    ensures rc == 0 <==> |argv| == 2 && kmallocOk && ParseOffset(argv[1]).Some? && argv[0] in host.devices
    ensures rc != 0 ==> ti.context == old(ti.context) && host.live == old(host.live) && host.held == old(host.held)
    ensures rc == 0 ==>
              ti.context != null && fresh(ti.context) && ti.error == old(ti.error) &&
              ti.context.start == ParseOffset(argv[1]).value && ti.context.dev == host.devices[argv[0]] &&
              host.live == old(host.live) + {ti.context} && host.held == old(host.held) + multiset{ti.context.dev}
    ensures rc == 0 ==> Active(ti, host)
  {
    if |argv| != 2 {
      ti.error := ErrArgCount;
      return -EINVAL;
    }

    var dmp := host.Alloc(kmallocOk);
    if dmp == null {
      ti.error := ErrAlloc;
      return -ENOMEM;
    }

    var start := ParseOffset(argv[1]);
    if start.None? {
      ti.error := ErrOffset;
      host.Free(dmp);
      return -EINVAL;
    }
    dmp.start := start.value;

    var dev := host.GetDevice(argv[0]);
    if dev.None? {
      ti.error := ErrLookup;
      host.Free(dmp);
      return -EINVAL;
    }
    dmp.dev := dev.value;

    ti.context := dmp;
    return 0;
  }

  /** The destructor: put the device, then free the record. */
  method Dtr(ti: Target, host: Host)
    requires Active(ti, host)
    modifies host
    ensures host.held == old(host.held) - multiset{ti.context.dev}
    ensures host.live == old(host.live) - {ti.context}
  {
    var dmp := ti.context;
    host.PutDevice(dmp.dev);
    host.Free(dmp);
  }

  /** The statistics report, read from the counters. */
  method VolumesShow(stats: GlobalStats) returns (r: seq<Section>)
    requires stats.Valid()
    ensures r == Report(stats.Snapshot())
    ensures r[2].reqs == |stats.history|
    ensures IsFloorMean(r[2].avg, |stats.history|, TotalSize(stats.history))
  {
    var readReqs := stats.readReqs;
    var writeReqs := stats.writeReqs;
    var readBytes := stats.readBytes;
    var writeBytes := stats.writeBytes;
    r := Report(Counters(readReqs, writeReqs, readBytes, writeBytes));
    ReplayTotals(stats.history);
  }

  /** A construction followed, when it succeeded, by a destruction leaves the host as it was. */
  method CreateThenDestroy(ti: Target, argv: seq<string>, host: Host, kmallocOk: bool) returns (rc: int)
    modifies ti, host
    ensures host.live == old(host.live) && host.held == old(host.held)
  {
    rc := Ctr(ti, argv, host, kmallocOk);
    if rc == 0 {
      Dtr(ti, host);
    }
  }

  /**
   * One session: an instance on a device with offset 1024, three reads of
   * 100 bytes and two writes of 200 bytes through it, then the report.
   */
  method ExampleSession() returns (r: seq<Section>)
    ensures r == [Section("read", 3, 100), Section("write", 2, 200), Section("total", 5, 140)]
  {
    var host := new Host(map["/dev/sdb" := 7]);
    var stats := new GlobalStats();
    var ti := new Target();
    ParseDecimal(1024);
    assert Decimal(1024) == "1024";
    var rc := Ctr(ti, ["/dev/sdb", "1024"], host, true);
    assert rc == 0 && ti.context.start == 1024;
    var dmp := ti.context;
    assert dmp.dev == 7;

    var i := 0;
    while i < 3
      invariant 0 <= i <= 3 && stats.Valid() && ti.context == dmp && dmp.dev == 7
      invariant stats.Snapshot() == Counters(i, 0, 100 * i, 0)
    {
      var bio := new Bio(Read, 100, 8, 0);
      var m := Map(ti, bio, stats);
      assert bio.bdev == dmp.dev == 7 && bio.sector == 8;
      i := i + 1;
    }
    i := 0;
    while i < 2
      invariant 0 <= i <= 2 && stats.Valid() && ti.context == dmp && dmp.dev == 7
      invariant stats.Snapshot() == Counters(3, i, 300, 200 * i)
    {
      var bio := new Bio(Write, 200, 8, 0);
      var m := Map(ti, bio, stats);
      assert bio.bdev == dmp.dev == 7 && bio.sector == 8;
      i := i + 1;
    }
    r := VolumesShow(stats);
    assert AvgSize(5, 700) == 140;
  }
}
