/**
 * The arithmetic of the global statistics of the "dmp" device-mapper proxy
 * target: the four counters that every mapped request feeds, and the report
 * (request count and average request size for reads, writes and their total)
 * derived from them on demand.
 *
 * Counters are unbounded naturals; the 64-bit wrap-around of the source's
 * atomic counters is not modelled.
 */
module Stats {

  /** Direction of a block I/O request: WRITE, or anything else (counted as a read). */
  datatype Direction = Read | Write

  /** What the accounting sees of one mapped request: its direction and its size in bytes. */
  datatype Request = Request(dir: Direction, size: nat)

  /** A reading of the four global counters. */
  datatype Counters = Counters(readReqs: nat, writeReqs: nat, readBytes: nat, writeBytes: nat)

  /** The counters as module initialisation leaves them. */
  const Zero := Counters(0, 0, 0, 0)

  /** The accounting done for one request: one request counter and the matching byte counter grow. */
  function Step(c: Counters, rq: Request): Counters
  {
    match rq.dir
    case Write => c.(writeReqs := c.writeReqs + 1, writeBytes := c.writeBytes + rq.size)
    case Read => c.(readReqs := c.readReqs + 1, readBytes := c.readBytes + rq.size)
  }

  /** The counters after the requests of `h`, in order, starting from zero. */
  function Replay(h: seq<Request>): Counters
  {
    if h == [] then Zero else Step(Replay(h[..|h| - 1]), h[|h| - 1])
  }

  /** Field-by-field ordering of counter readings. */
  predicate AtMost(c: Counters, d: Counters)
  {
    c.readReqs <= d.readReqs && c.writeReqs <= d.writeReqs &&
    c.readBytes <= d.readBytes && c.writeBytes <= d.writeBytes
  }

  // Reference definitions, independent of Replay: how many requests of a
  // direction a history holds, and how many bytes they carry.

  function Count(h: seq<Request>, d: Direction): nat
  {
    if h == [] then 0 else (if h[0].dir == d then 1 else 0) + Count(h[1..], d)
  }

  function Bytes(h: seq<Request>, d: Direction): nat
  {
    if h == [] then 0 else (if h[0].dir == d then h[0].size else 0) + Bytes(h[1..], d)
  }

  function TotalSize(h: seq<Request>): nat
  {
    if h == [] then 0 else h[0].size + TotalSize(h[1..])
  }

  lemma {:induction false} CountAppend(h: seq<Request>, x: Request, d: Direction)
    ensures Count(h + [x], d) == Count(h, d) + (if x.dir == d then 1 else 0)
    ensures Bytes(h + [x], d) == Bytes(h, d) + (if x.dir == d then x.size else 0)
  {
    if h != [] {
      assert (h + [x])[1..] == h[1..] + [x];
      CountAppend(h[1..], x, d);
    } else {
      assert [x][1..] == [];
    }
  }

  /** Each counter holds exactly what the requests of its direction contributed. */
  lemma {:induction false} ReplayCounts(h: seq<Request>)
    ensures Replay(h) == Counters(Count(h, Read), Count(h, Write), Bytes(h, Read), Bytes(h, Write))
  {
    if h != [] {
      var p, x := h[..|h| - 1], h[|h| - 1];
      assert h == p + [x];
      ReplayCounts(p);
      CountAppend(p, x, Read);
      CountAppend(p, x, Write);
    }
  }

  /** Every request is either a read or a write, never both. */
  lemma {:induction false} DirectionsPartition(h: seq<Request>)
    ensures Count(h, Read) + Count(h, Write) == |h|
    ensures Bytes(h, Read) + Bytes(h, Write) == TotalSize(h)
  {
    if h != [] {
      DirectionsPartition(h[1..]);
    }
  }

  /** After any sequence of requests the request counters add up to their number and
      the byte counters to the sum of their sizes. */
  lemma ReplayTotals(h: seq<Request>)
    ensures Replay(h).readReqs + Replay(h).writeReqs == |h|
    ensures Replay(h).readBytes + Replay(h).writeBytes == TotalSize(h)
  {
    ReplayCounts(h);
    DirectionsPartition(h);
  }

  /** Counters only grow: the reading after a prefix of the history is below the reading after all of it. */
  lemma {:induction false} ReplayMonotone(h: seq<Request>, i: nat)
    requires i <= |h|
    ensures AtMost(Replay(h[..i]), Replay(h))
  {
    if i < |h| {
      var p := h[..|h| - 1];
      assert p[..i] == h[..i];
      ReplayMonotone(p, i);
    } else {
      assert h[..i] == h;
    }
  }

  /** A direction that saw no request carries no bytes. */
  lemma {:induction false} NoRequestsNoBytes(h: seq<Request>, d: Direction)
    requires Count(h, d) == 0
    ensures Bytes(h, d) == 0
  {
    if h != [] {
      NoRequestsNoBytes(h[1..], d);
    }
  }

  /** `avg` is the integer (floor) mean of `bytes` over `reqs`, and 0 when there is no request. */
  predicate IsFloorMean(avg: nat, reqs: nat, bytes: nat)
  {
    (reqs == 0 ==> avg == 0) &&
    (reqs > 0 ==> avg * reqs <= bytes < (avg + 1) * reqs)
  }

  /** The average request size of the report, guarded against a zero request count. */
  function AvgSize(reqs: nat, bytes: nat): (avg: nat)
    ensures IsFloorMean(avg, reqs, bytes)
  {
    if reqs > 0 then bytes / reqs else 0
  }

  lemma MulMonotone(x: nat, y: nat, n: nat)
    requires x <= y
    ensures x * n <= y * n
  {
  }

  /** The floor-mean characterisation leaves no choice of average. */
  lemma FloorMeanUnique(a: nat, b: nat, reqs: nat, bytes: nat)
    requires IsFloorMean(a, reqs, bytes) && IsFloorMean(b, reqs, bytes)
    ensures a == b
  {
    if reqs > 0 && a != b {
      if a < b {
        MulMonotone(a + 1, b, reqs);
      } else {
        MulMonotone(b + 1, a, reqs);
      }
    }
  }

  /** One section of the report: a title, a request count and an average request size. */
  datatype Section = Section(title: string, reqs: nat, avg: nat)

  /** The report, read, then write, then total, each with its request count and average size. */
  function Report(c: Counters): (r: seq<Section>)
    ensures |r| == 3
    ensures r[0].title == "read" && r[1].title == "write" && r[2].title == "total"
    ensures r[0].reqs == c.readReqs && r[1].reqs == c.writeReqs
    ensures r[2].reqs == r[0].reqs + r[1].reqs
    ensures IsFloorMean(r[0].avg, c.readReqs, c.readBytes)
    ensures IsFloorMean(r[1].avg, c.writeReqs, c.writeBytes)
    ensures IsFloorMean(r[2].avg, r[2].reqs, c.readBytes + c.writeBytes)
  {
    var totalReqs := c.readReqs + c.writeReqs;
    var totalBytes := c.readBytes + c.writeBytes;
    [ Section("read", c.readReqs, AvgSize(c.readReqs, c.readBytes)),
      Section("write", c.writeReqs, AvgSize(c.writeReqs, c.writeBytes)),
      Section("total", totalReqs, AvgSize(totalReqs, totalBytes)) ]
  }

  function Min(a: nat, b: nat): nat { if a <= b then a else b }

  function Max(a: nat, b: nat): nat { if a <= b then b else a }

  lemma MulDistributes(x: nat, m: nat, n: nat)
    ensures x * (m + n) == x * m + x * n
  {
  }

  /** Lower half of TotalAvgBetween, on plain numbers. */
  lemma MeanAtLeast(lo: nat, t: nat, n1: nat, n2: nat, b1: nat, b2: nat)
    requires n1 > 0 && n2 > 0
    requires lo * n1 <= b1 && lo * n2 <= b2
    requires b1 + b2 < (t + 1) * (n1 + n2)
    ensures lo <= t
  {
    MulDistributes(lo, n1, n2);
    if t < lo {
      MulMonotone(t + 1, lo, n1 + n2);
    }
  }

  /** Upper half of TotalAvgBetween, on plain numbers. */
  lemma MeanAtMost(hi: nat, t: nat, n1: nat, n2: nat, b1: nat, b2: nat)
    requires n1 > 0 && n2 > 0
    requires b1 < (hi + 1) * n1 && b2 < (hi + 1) * n2
    requires t * (n1 + n2) <= b1 + b2
    ensures t <= hi
  {
    MulDistributes(hi + 1, n1, n2);
    if hi < t {
      MulMonotone(hi + 1, t, n1 + n2);
    }
  }

  /** When both directions saw requests, the total average lies between the read and write averages. */
  lemma TotalAvgBetween(c: Counters)
    requires c.readReqs > 0 && c.writeReqs > 0
    ensures Min(Report(c)[0].avg, Report(c)[1].avg) <= Report(c)[2].avg <= Max(Report(c)[0].avg, Report(c)[1].avg)
  {
    var r := Report(c);
    var a, b, t := r[0].avg, r[1].avg, r[2].avg;
    var n1, n2, b1, b2 := c.readReqs, c.writeReqs, c.readBytes, c.writeBytes;
    var lo, hi := Min(a, b), Max(a, b);
    MulMonotone(lo, a, n1);
    MulMonotone(lo, b, n2);
    MeanAtLeast(lo, t, n1, n2, b1, b2);
    MulMonotone(a + 1, hi + 1, n1);
    MulMonotone(b + 1, hi + 1, n2);
    MeanAtMost(hi, t, n1, n2, b1, b2);
  }

  /** When no write has been seen, the total section repeats the read section's average. */
  lemma OnlyReadsTotalIsRead(h: seq<Request>)
    requires Replay(h).writeReqs == 0
    ensures Report(Replay(h))[2].avg == Report(Replay(h))[0].avg
  {
    var c := Replay(h);
    ReplayCounts(h);
    NoRequestsNoBytes(h, Write);
    assert Report(c)[2] == Section("total", c.readReqs, AvgSize(c.readReqs, c.readBytes));
  }

  /** When no read has been seen, the total section repeats the write section's average. */
  lemma OnlyWritesTotalIsWrite(h: seq<Request>)
    requires Replay(h).readReqs == 0
    ensures Report(Replay(h))[2].avg == Report(Replay(h))[1].avg
  {
    var c := Replay(h);
    ReplayCounts(h);
    NoRequestsNoBytes(h, Read);
    assert Report(c)[2] == Section("total", c.writeReqs, AvgSize(c.writeReqs, c.writeBytes));
  }
}
