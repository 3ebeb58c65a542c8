# dmp: a device-mapper proxy target with global statistics

`dmp.c` is a Linux device-mapper target named `dmp`. Each instance sits on one
underlying block device. Every request mapped through any instance is counted in
one process-wide set of four counters: read requests, write requests, read bytes
and write bytes. The request is then redirected, unchanged, to the instance's
underlying device. A read-only control-plane file (`/sys/module/dmp/stat/volumes`)
reports the request count and the average request size for reads, for writes and
for both together.

This project models that core in Dafny, one call at a time:

- `Stats` (stats.dfy) holds the pure arithmetic. The accounting step of one request
  is `Step`, and `Replay` gives the counters after a whole history of requests. The
  report of `volumes_show` is `Report`: three sections (title, request count,
  average size) in the source's order, with the guarded integer average `AvgSize`.
  Lemmas relate `Replay` to independent per-direction counts and sums.
- `Offset` (offset.dfy) parses the constructor's offset argument as a non-empty
  string of decimal digits. It is paired with a decimal renderer and a round-trip lemma.
- `Dmp` (dmp.dfy) holds the imperative part. `GlobalStats` is a class with the four
  counters, plus a ghost history of the requests it has accounted. `Map`,
  `Ctr`, `Dtr` and `VolumesShow` are the source's `dmp_map`, `dmp_ctr`, `dmp_dtr` and
  `volumes_show`. The kernel's allocator and device table form a `Host` object. Its
  ghost state records which instance records are allocated (`live`) and which
  device references are held (`held`).

The stored start offset is never applied to a request: `Map` leaves the request's
sector as it was, as the source does.

## Model

| member | source | states |
|---|---|---|
| `Dmp.GlobalStats.constructor` | dmp.c:168-171 | module initialisation sets all four counters to zero, with an empty request history |
| `Dmp.Map` | dmp.c:75-94 | a WRITE adds 1 to write_reqs and the request size to write_bytes, and leaves both read counters unchanged; any other request does the same to the read counters; the request is redirected to the instance's device, its sector is untouched (the start offset is not added), the result is always DM_MAPIO_REMAPPED, and the counters stay equal to the replay of the extended history |
| `Dmp.Ctr` | dmp.c:96-139 | argc != 2 gives -EINVAL with the argument-count message and allocates nothing; a failed allocation gives -ENOMEM; an unparsable offset or an unknown device gives -EINVAL with its own message, frees the record and leaves ti->private and the held devices as they were; success (exactly when all checks pass) sets ti->private to a fresh record with the parsed start and the resolved device, holding one more device reference and one more record |
| `Dmp.Dtr` | dmp.c:141-150 | puts the instance's device reference exactly once and frees its record |
| `Dmp.CreateThenDestroy` | dmp.c:96-150 | a construction followed, when it succeeded, by the destruction leaves the allocated records and held device references as they were, on every construction path |
| `Dmp.Host.Alloc` | dmp.c:108-114 | the allocation succeeds exactly when memory is available, and then yields a fresh record that is now live |
| `Dmp.Host.Free` | dmp.c:136-138 | the freed record is no longer live; device references are unchanged |
| `Dmp.Host.GetDevice` | dmp.c:124-129 | a known path yields its device and one more reference on it; an unknown path fails and takes nothing |
| `Dmp.Host.PutDevice` | dmp.c:147 | exactly one reference on the device is dropped |
| `Dmp.VolumesShow` | dmp.c:34-61 | the report is computed from the current counters; its total request count is the number of requests accounted, and its total average is the floor mean of their sizes |
| `Dmp.ExampleSession` | dmp.c:34-139 | an instance with offset 1024, three reads of 100 bytes and two writes of 200 bytes through it give the report read 3/100, write 2/200, total 5/140 |
| `Stats.AvgSize` | dmp.c:44-46 | the average is 0 when there is no request, and otherwise the floor of bytes over requests (avg * reqs <= bytes < (avg + 1) * reqs) |
| `Stats.FloorMeanUnique` | dmp.c:44-46 | the floor-mean characterisation determines the average uniquely |
| `Stats.Report` | dmp.c:41-60 | three sections, read, then write, then total; the total request count is the sum of the other two; each average is the guarded floor mean of its bytes |
| `Stats.TotalAvgBetween` | dmp.c:41-46 | when both directions saw requests, the total average lies between the read and the write averages |
| `Stats.OnlyReadsTotalIsRead` | dmp.c:41-46 | after a history with no write, the total average equals the read average |
| `Stats.OnlyWritesTotalIsWrite` | dmp.c:41-46 | after a history with no read, the total average equals the write average |
| `Stats.ReplayCounts` | dmp.c:80-89 | after any history each counter equals the number of requests of its direction, or the sum of their sizes |
| `Stats.DirectionsPartition` | dmp.c:80-89 | every request is counted in exactly one direction: the per-direction counts add up to the history's length and the per-direction bytes to its total size |
| `Stats.ReplayTotals` | dmp.c:80-89 | after any history read_reqs + write_reqs is the number of requests and read_bytes + write_bytes the sum of their sizes |
| `Stats.ReplayMonotone` | dmp.c:80-89 | counters are only ever increased: the counters after a prefix of a history are, field by field, at most the counters after the whole history |
| `Stats.NoRequestsNoBytes` | dmp.c:80-89 | a direction that saw no request has a byte counter of zero |
| `Offset.ParseOffset` | dmp.c:116-122 | the offset parses exactly when it is a non-empty run of decimal digits |
| `Offset.Decimal` | dmp.c:116 | the inverse of the offset parser: the rendering of a number is a non-empty run of digits with no leading zero |
| `Offset.ParseDecimal` | dmp.c:116 | parsing the decimal rendering of a number gives that number back |
| `Offset.RenderParsed` | dmp.c:116 | a non-empty run of digits with no leading zero is the rendering of the offset it parses to, so the parser and the rendering are inverse on such strings |
| `Offset.ParseLeadingZero` | dmp.c:116 | a leading zero does not change the parsed offset |

## Left out

- Concurrency: the counters are `atomic64_t` updated from many contexts at once, and `volumes_show` reads them without a common snapshot. Calls are modelled one at a time, so the window in which a request is counted but its bytes are not yet added is not represented.
- Module registration and teardown (`dmp_init` after line 171, `dmp_exit`, dmp.c:174-229): target registration, the sysfs kobject and attribute group, and the `sysfs_err` rollback are host glue.
- `printk` logging, and the text layout of the report: `Report` gives the three sections as (title, reqs, avg) records in the source's order, not the formatted text, and the PAGE_SIZE truncation of `scnprintf` is not modelled.
- The internals of `kmalloc`, `kfree`, `dm_get_device`, `dm_put_device` and `dm_table_get_mode`: allocation success is a parameter of `Ctr`, device lookup resolves a path through the `Host.devices` map, and the access mode is not modelled.
- Offset.ParseOffset: the kernel's `sscanf("%llu")` also skips leading white space and ignores trailing characters after the digits; the model accepts only a non-empty run of decimal digits. The value is an unbounded natural, so the 64-bit limit and the `sector_t` cast are not modelled.
- Dmp.Map: the counters are unbounded naturals, so the 64-bit wrap-around of the counters is not modelled; the request size is a natural, without the 32-bit bound of `bi_size`.
- Stats.Report: the totals are sums of unbounded naturals, so the 64-bit wrap-around of the u64 sums `total_reqs` and `total_bytes` (dmp.c:41-42), which can wrap even when neither counter does, is not modelled.
- Dmp.Dtr: like the source, it leaves `ti->private` pointing at the freed record; the model does not represent what a later use of it would do.
