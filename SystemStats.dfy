/** backend/routes/systemRoutes.js: the uptime shown by the health route and
    the statistics folded over the stored documents by the stats route. The
    process uptime and the document listing are parameters. */
module SystemStats {
  import opened Common
  import DocumentService

  type DocumentRecord = DocumentService.DocumentRecord

  /** The uptime as the health route reports it. */
  datatype Uptime = Uptime(hours: int, minutes: int, seconds: int, totalSeconds: int, formatted: string)

  datatype Stats = Stats(
    totalDocuments: nat, byType: map<string, nat>,
    totalChunks: nat, averageChunks: nat,
    totalCharacters: nat, averagePerDocument: nat)

  /** The stats route's answer: the statistics, or the message of what the
      listing threw (answered with code `STATS_FAILED`). */
  datatype StatsReply = StatsOk(stats: Stats) | StatsFailed(message: string)

  /** JavaScript's `%` on a non-negative number and a positive modulus. */
  function Fmod(x: real, m: real): real
    requires m > 0.0
  {
    x - m * ((x / m).Floor as real)
  }

  /** Splitting `x` at its whole part: `x` lies in `[n, n + 1)`. */
  lemma FloorBounds(x: real)
    ensures x.Floor as real <= x < x.Floor as real + 1.0
  {
  }

  /** The whole part of `x / d` is the integer quotient of `x`'s whole part. */
  lemma FloorOfQuotient(x: real, d: int)
    requires x >= 0.0 && d > 0
    ensures (x / d as real).Floor == x.Floor / d
  {
    var n := x.Floor;
    var q, rem := n / d, n % d;
    assert n == q * d + rem && 0 <= rem < d;
    FloorBounds(x);
    var y := x / d as real;
    assert y * d as real == x;
    assert (q * d) as real <= x < (q * d + d) as real;
    assert q as real * d as real <= y * d as real < (q + 1) as real * d as real;
    assert q as real <= y < (q + 1) as real;
  }

  /** The health route's decomposition of a non-negative uptime. */
  function UptimeOf(uptimeSeconds: real): (u: Uptime)
    requires uptimeSeconds >= 0.0
  {
    var hours := (uptimeSeconds / 3600.0).Floor;
    var minutes := (Fmod(uptimeSeconds, 3600.0) / 60.0).Floor;
    var seconds := Fmod(uptimeSeconds, 60.0).Floor;
    Uptime(hours, minutes, seconds, uptimeSeconds.Floor,
           IntToString(hours) + "h " + IntToString(minutes) + "m " + IntToString(seconds) + "s")
  }

  /** JavaScript's `%` keeps the whole part's remainder. */
  lemma FmodFloor(x: real, d: int)
    requires x >= 0.0 && d > 0
    ensures Fmod(x, d as real) >= 0.0
    ensures Fmod(x, d as real).Floor == x.Floor % d
  {
    var n := x.Floor;
    FloorOfQuotient(x, d);
    FloorBounds(x);
    var q := n / d;
    assert Fmod(x, d as real) == x - (q * d) as real;
    assert n == q * d + n % d;
    var f := Fmod(x, d as real);
    assert (n % d) as real <= f < (n % d) as real + 1.0;
  }

  /** Whole seconds split into hours, minutes and seconds. */
  lemma SplitSeconds(n: int)
    requires n >= 0
    ensures n / 3600 * 3600 + (n % 3600) / 60 * 60 + n % 60 == n
    ensures 0 <= (n % 3600) / 60 < 60
  {
    var q, r := n / 3600, n % 3600;
    var a, b := r / 60, r % 60;
    assert r == a * 60 + b && 0 <= b < 60 && 0 <= a < 60;
    assert n == (q * 60 + a) * 60 + b;
    assert n % 60 == b;
  }

  /** Hours, minutes and seconds add back up to the whole seconds, with the
      minutes and seconds below 60. */
  lemma UptimeDecomposes(uptimeSeconds: real)
    requires uptimeSeconds >= 0.0
    ensures var u := UptimeOf(uptimeSeconds);
      && u.hours * 3600 + u.minutes * 60 + u.seconds == u.totalSeconds
      && 0 <= u.minutes < 60 && 0 <= u.seconds < 60 && 0 <= u.hours
  {
    var x := uptimeSeconds;
    var n := x.Floor;
    assert (x / 3600.0).Floor == n / 3600 by {
      FloorOfQuotient(x, 3600);
    }
    var r := Fmod(x, 3600.0);
    assert r >= 0.0 && r.Floor == n % 3600 by {
      FmodFloor(x, 3600);
    }
    assert (r / 60.0).Floor == (n % 3600) / 60 by {
      FloorOfQuotient(r, 60);
    }
    assert Fmod(x, 60.0).Floor == n % 60 by {
      FmodFloor(x, 60);
    }
    SplitSeconds(n);
  }

  /** `doc.chunkCount || 0` and `doc.textLength || 0`. */
  function ChunksOf(doc: DocumentRecord): nat {
    if doc.chunkCount.Some? then doc.chunkCount.value else 0
  }

  function LengthOf(doc: DocumentRecord): nat {
    if doc.textLength.Some? then doc.textLength.value else 0
  }

  /** `doc.fileType || "unknown"`. */
  function TypeOf(doc: DocumentRecord): string {
    if doc.fileType.Some? && doc.fileType.value != "" then doc.fileType.value else "unknown"
  }

  /** The `reduce` sums, from the first document on. */
  function TotalChunks(docs: seq<DocumentRecord>): nat {
    if docs == [] then 0 else ChunksOf(docs[0]) + TotalChunks(docs[1..])
  }

  function TotalLength(docs: seq<DocumentRecord>): nat {
    if docs == [] then 0 else LengthOf(docs[0]) + TotalLength(docs[1..])
  }

  /** `acc[type] || 0`. */
  function CountIn(acc: map<string, nat>, t: string): nat {
    if t in acc then acc[t] else 0
  }

  /** The `byType` fold: each document increments its type's count. */
  function ByType(docs: seq<DocumentRecord>): map<string, nat> {
    if docs == [] then map[]
    else
      var acc := ByType(docs[..|docs| - 1]);
      var t := TypeOf(docs[|docs| - 1]);
      acc[t := CountIn(acc, t) + 1]
  }

  /** The number of documents of a type. */
  function CountOfType(docs: seq<DocumentRecord>, t: string): nat {
    if docs == [] then 0
    else CountOfType(docs[..|docs| - 1], t) + (if TypeOf(docs[|docs| - 1]) == t then 1 else 0)
  }

  /** The fold counts every type exactly, and lists only types that occur. */
  lemma {:induction false} ByTypeCounts(docs: seq<DocumentRecord>, t: string)
    ensures CountIn(ByType(docs), t) == CountOfType(docs, t)
    ensures t in ByType(docs) <==> CountOfType(docs, t) > 0
  {
    if docs != [] {
      ByTypeCounts(docs[..|docs| - 1], t);
    }
  }

  /** The sum of a map's counts. */
  ghost function MapTotal(m: map<string, nat>): nat
    decreases |m.Keys|
  {
    if m == map[] then 0
    else
      var k :| k in m;
      assert |(m - {k}).Keys| < |m.Keys| by {
        assert m.Keys == (m - {k}).Keys + {k};
      }
      m[k] + MapTotal(m - {k})
  }

  /** Any key can be taken out of the sum first. */
  lemma {:induction false} MapTotalRemove(m: map<string, nat>, k: string)
    requires k in m
    ensures MapTotal(m) == m[k] + MapTotal(m - {k})
    decreases |m.Keys|
  {
    var j :| j in m && MapTotal(m) == m[j] + MapTotal(m - {j});
    if j != k {
      assert |(m - {j}).Keys| < |m.Keys| by {
        assert m.Keys == (m - {j}).Keys + {j};
      }
      MapTotalRemove(m - {j}, k);
      assert (m - {j}) - {k} == (m - {k}) - {j};
      assert |(m - {k}).Keys| < |m.Keys| by {
        assert m.Keys == (m - {k}).Keys + {k};
      }
      MapTotalRemove(m - {k}, j);
    }
  }

  /** The per-type counts add up to the number of documents. */
  lemma {:induction false} ByTypeSumsToTotal(docs: seq<DocumentRecord>)
    ensures MapTotal(ByType(docs)) == |docs|
  {
    if docs != [] {
      var init := docs[..|docs| - 1];
      var acc := ByType(init);
      var t := TypeOf(docs[|docs| - 1]);
      ByTypeSumsToTotal(init);
      var after := acc[t := CountIn(acc, t) + 1];
      MapTotalRemove(after, t);
      assert after - {t} == acc - {t};
      if t in acc {
        MapTotalRemove(acc, t);
      } else {
        assert acc - {t} == acc;
      }
    }
  }

  /** `Math.round(total / count)` for a positive count: half rounds up. */
  function RoundedAverage(total: nat, count: nat): (avg: nat)
    requires count > 0
  {
    (2 * total + count) / (2 * count)
  }

  /** The rounded average is the nearest whole number: within half a
      document of the exact quotient. */
  lemma RoundedAverageNearest(total: nat, count: nat)
    requires count > 0
    ensures var avg := RoundedAverage(total, count);
      2 * avg * count <= 2 * total + count && 2 * total < 2 * avg * count + count
  {
    var avg := RoundedAverage(total, count);
    var d := 2 * count;
    var x := 2 * total + count;
    assert x == avg * d + x % d && 0 <= x % d < d;
    assert avg * d == 2 * avg * count;
  }

  /** The statistics of a listing. */
  function StatsOf(docs: seq<DocumentRecord>): (s: Stats)
    ensures s.totalDocuments == |docs|
    ensures docs == [] ==> s.averageChunks == 0 && s.averagePerDocument == 0 && s.byType == map[]
  {
    var n := |docs|;
    var chunks := TotalChunks(docs);
    var length := TotalLength(docs);
    Stats(n, ByType(docs), chunks, if n > 0 then RoundedAverage(chunks, n) else 0,
          length, if n > 0 then RoundedAverage(length, n) else 0)
  }

  /** `GET /api/stats` over the outcome of `listDocuments()`. */
  function StatsRoute(listing: Result<seq<DocumentRecord>, string>): (r: StatsReply)
    ensures listing.Err? ==> r == StatsFailed(listing.error)
    ensures listing.Ok? ==> r == StatsOk(StatsOf(listing.value))
  {
    match listing
    case Ok(docs) => StatsOk(StatsOf(docs))
    case Err(e) => StatsFailed(e)
  }

  /** The documents counted by the statistics are those listed, and a
      document with no recorded chunk count or length adds nothing. */
  lemma {:induction false} TotalsIgnoreMissing(docs: seq<DocumentRecord>, doc: DocumentRecord)
    requires doc.chunkCount.None? && doc.textLength.None?
    ensures TotalChunks(docs + [doc]) == TotalChunks(docs)
    ensures TotalLength(docs + [doc]) == TotalLength(docs)
  {
    if docs == [] {
      assert [doc][1..] == [];
    } else {
      assert (docs + [doc])[1..] == docs[1..] + [doc];
      TotalsIgnoreMissing(docs[1..], doc);
    }
  }
}
