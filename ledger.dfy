/** The points ledger of the admin "Daily Donations" page: the points formula,
    the daily-log table keyed by (temple, day), and the temple's running
    `donation_points` counter that every saved log adds to. */
module Ledger {
  import opened Common

  /** A kg field read with `Number(x)`: an integer, or NaN for text that is
      not a number. */
  datatype Numeric = Num(n: int) | NaN

  /** `Number(x) || 0` */
  function NumberOrZero(x: Numeric): int
  {
    if x.Num? then x.n else 0
  }

  function Total(dry: Numeric, wet: Numeric, plastic: Numeric): int
  {
    NumberOrZero(dry) + NumberOrZero(wet) + NumberOrZero(plastic)
  }

  /** One point per 5 kg of combined waste, rounded down. */
  function CalcPoints(dry: Numeric, wet: Numeric, plastic: Numeric): (p: int)
    ensures 5 * p <= Total(dry, wet, plastic) < 5 * p + 5
  {
    Total(dry, wet, plastic) / 5
  }

  lemma CalcPointsExamples()
    ensures CalcPoints(Num(0), Num(0), Num(0)) == 0
    ensures CalcPoints(Num(10), Num(15), Num(6)) == 6
    ensures CalcPoints(Num(10), Num(10), Num(5)) == 5
  {
    var p0, p1, p2 := CalcPoints(Num(0), Num(0), Num(0)), CalcPoints(Num(10), Num(15), Num(6)),
      CalcPoints(Num(10), Num(10), Num(5));
    assert 5 * p0 <= 0 < 5 * p0 + 5;
    assert 5 * p1 <= 31 < 5 * p1 + 5;
    assert 5 * p2 <= 25 < 5 * p2 + 5;
  }

  /** More waste of any kind never gives fewer points. */
  lemma CalcPointsMonotonic(d1: int, w1: int, p1: int, d2: int, w2: int, p2: int)
    requires d1 <= d2 && w1 <= w2 && p1 <= p2
    ensures CalcPoints(Num(d1), Num(w1), Num(p1)) <= CalcPoints(Num(d2), Num(w2), Num(p2))
  {
  }

  /** A field that is not a number counts as 0 kg. */
  lemma NaNCountsAsZero(dry: Numeric, wet: Numeric, plastic: Numeric)
    ensures CalcPoints(NaN, wet, plastic) == CalcPoints(Num(0), wet, plastic)
    ensures CalcPoints(dry, NaN, plastic) == CalcPoints(dry, Num(0), plastic)
    ensures CalcPoints(dry, wet, NaN) == CalcPoints(dry, wet, Num(0))
  {
  }

  /** The page's form state. */
  datatype LogForm = LogForm(templeId: string, day: string, dry: Numeric, wet: Numeric,
                             plastic: Numeric, collectedBy: string)

  const BlankForm := LogForm("", "", Num(0), Num(0), Num(0), "")

  /** A row of `temple_daily_logs`. */
  datatype DailyLog = DailyLog(templeId: string, day: string, dry: Numeric, wet: Numeric,
                               plastic: Numeric, points: int, collectedBy: string, updatedAt: string)

  function KeyOf(l: DailyLog): (string, string)
  {
    (l.templeId, l.day)
  }

  /** The payload `upsertLog` builds from the form. */
  function LogFor(f: LogForm, now: string): DailyLog
  {
    DailyLog(f.templeId, f.day, f.dry, f.wet, f.plastic, CalcPoints(f.dry, f.wet, f.plastic),
             f.collectedBy, now)
  }

  function KeysOf(logs: seq<DailyLog>): set<(string, string)>
  {
    if logs == [] then {} else {KeyOf(logs[0])} + KeysOf(logs[1..])
  }

  /** The table's unique constraint on (temple_id, day). */
  predicate UniqueKeys(logs: seq<DailyLog>)
  {
    logs == [] || (KeyOf(logs[0]) !in KeysOf(logs[1..]) && UniqueKeys(logs[1..]))
  }

  /** The first row with key `k`. */
  function Find(logs: seq<DailyLog>, k: (string, string)): Option<DailyLog>
  {
    if logs == [] then None
    else if KeyOf(logs[0]) == k then Some(logs[0])
    else Find(logs[1..], k)
  }

  /** The number of rows with key `k`. */
  function Count(logs: seq<DailyLog>, k: (string, string)): nat
  {
    if logs == [] then 0 else (if KeyOf(logs[0]) == k then 1 else 0) + Count(logs[1..], k)
  }

  /** The rows whose key is not `k`, in table order. */
  function Others(logs: seq<DailyLog>, k: (string, string)): seq<DailyLog>
  {
    if logs == [] then []
    else (if KeyOf(logs[0]) == k then [] else [logs[0]]) + Others(logs[1..], k)
  }

  /** `upsert(payload, { onConflict: ["temple_id", "day"] })`: the row with the
      payload's key is overwritten, or the payload is added when there is none. */
  function Upsert(logs: seq<DailyLog>, log: DailyLog): (r: seq<DailyLog>)
    ensures Find(r, KeyOf(log)) == Some(log)
    ensures forall k :: k != KeyOf(log) ==> Find(r, k) == Find(logs, k)
    ensures Others(r, KeyOf(log)) == Others(logs, KeyOf(log))
    ensures KeysOf(r) == KeysOf(logs) + {KeyOf(log)}
    ensures |r| == if Find(logs, KeyOf(log)).Some? then |logs| else |logs| + 1
    ensures UniqueKeys(logs) ==> UniqueKeys(r)
  {
    if logs == [] then [log]
    else if KeyOf(logs[0]) == KeyOf(log) then [log] + logs[1..]
    else [logs[0]] + Upsert(logs[1..], log)
  }

  lemma {:induction false} UniqueCount(logs: seq<DailyLog>, k: (string, string))
    requires UniqueKeys(logs)
    ensures Count(logs, k) == if k in KeysOf(logs) then 1 else 0
  {
    if logs != [] {
      UniqueCount(logs[1..], k);
      assert k in KeysOf(logs) <==> k == KeyOf(logs[0]) || k in KeysOf(logs[1..]);
    }
  }

  /** After an upsert the table holds exactly one row for the key, equal to
      the payload. */
  lemma UpsertLeavesExactlyOne(logs: seq<DailyLog>, log: DailyLog)
    requires UniqueKeys(logs)
    ensures Count(Upsert(logs, log), KeyOf(log)) == 1
    ensures Find(Upsert(logs, log), KeyOf(log)) == Some(log)
  {
    UniqueCount(Upsert(logs, log), KeyOf(log));
  }

  /** Saving the same (temple, day) twice leaves one row, with the second
      submission's values. */
  lemma UpsertTwiceKeepsSecond(logs: seq<DailyLog>, l1: DailyLog, l2: DailyLog)
    requires UniqueKeys(logs) && KeyOf(l1) == KeyOf(l2)
    ensures Count(Upsert(Upsert(logs, l1), l2), KeyOf(l2)) == 1
    ensures Find(Upsert(Upsert(logs, l1), l2), KeyOf(l2)) == Some(l2)
    ensures |Upsert(Upsert(logs, l1), l2)| == |Upsert(logs, l1)|
  {
    UpsertLeavesExactlyOne(Upsert(logs, l1), l2);
  }

  /** The temples table, seen through its `donation_points` column: each
      `unique_id` maps to its points, null when never set. */
  type TemplePoints = map<string, Option<int>>

  /** The read of `donation_points` (`templeRow?.donation_points || 0`) then
      the write of the sum: a failed or empty read counts as 0, and a failed
      write or a missing row changes nothing. */
  function Award(temples: TemplePoints, id: string, points: int, readOk: bool, writeOk: bool)
    : (r: TemplePoints)
    ensures r.Keys == temples.Keys
    ensures forall t :: t in temples && t != id ==> r[t] == temples[t]
    ensures id in temples && writeOk ==>
      r[id] == Some((if readOk then OrZero(temples[id]) else 0) + points)
    ensures !writeOk ==> r == temples
  {
    var prior := if readOk && id in temples then OrZero(temples[id]) else 0;
    if writeOk && id in temples then temples[id := Some(prior + points)] else temples
  }

  /** Two submissions for one temple, both written, raise its points by the
      sum of both logs' points, whether or not they share a day. */
  lemma AwardTwiceAddsBoth(temples: TemplePoints, id: string, p1: int, p2: int)
    requires id in temples
    ensures Award(Award(temples, id, p1, true, true), id, p2, true, true)[id]
         == Some(OrZero(temples[id]) + p1 + p2)
  {
  }

  /** Sequential awards of 6 and then 1 points on a total of 0 give 7. */
  lemma SequentialAwardExample(temples: TemplePoints, id: string)
    requires id in temples && temples[id] == Some(0)
    ensures Award(Award(temples, id, 6, true, true), id, 1, true, true)[id] == Some(7)
  {
  }

  /** The points of a temple's logs, summed over the table. */
  function SumFor(logs: seq<DailyLog>, templeId: string): int
  {
    if logs == [] then 0
    else (if logs[0].templeId == templeId then logs[0].points else 0) + SumFor(logs[1..], templeId)
  }

  /** The points of the row with key `k`, 0 when there is none. */
  function PointsAt(logs: seq<DailyLog>, k: (string, string)): int
  {
    match Find(logs, k)
    case Some(l) => l.points
    case None => 0
  }

  /** An upsert changes the sum of a temple's logs by the new log's points
      minus those of the log it overwrote; other temples' sums are unchanged. */
  lemma {:induction false} UpsertSum(logs: seq<DailyLog>, log: DailyLog, templeId: string)
    ensures SumFor(Upsert(logs, log), templeId) == SumFor(logs, templeId)
      + (if templeId == log.templeId then log.points - PointsAt(logs, KeyOf(log)) else 0)
  {
    if logs != [] && KeyOf(logs[0]) != KeyOf(log) {
      UpsertSum(logs[1..], log, templeId);
      assert Upsert(logs, log) == [logs[0]] + Upsert(logs[1..], log);
      assert Upsert(logs, log)[1..] == Upsert(logs[1..], log);
    } else if logs != [] {
      assert Upsert(logs, log)[1..] == logs[1..];
    }
  }

  /** The counter does not subtract the overwritten log's points: when a
      temple's counter equals the sum of its logs and a log is re-saved for
      an existing day, the counter ends up ahead of the sum by exactly the
      old log's points. */
  lemma OverwriteDoubleCounts(logs: seq<DailyLog>, temples: TemplePoints, log: DailyLog)
    requires log.templeId in temples
    requires OrZero(temples[log.templeId]) == SumFor(logs, log.templeId)
    requires Find(logs, KeyOf(log)).Some?
    ensures OrZero(Award(temples, log.templeId, log.points, true, true)[log.templeId])
         == SumFor(Upsert(logs, log), log.templeId) + PointsAt(logs, KeyOf(log))
  {
    UpsertSum(logs, log, log.templeId);
  }

  /** The end-to-end example: temple "01", 10 + 10 + 5 kg on 2025-01-01. */
  lemma EndToEndExample(logs: seq<DailyLog>, temples: TemplePoints, collector: string, now: string)
    requires "01" in temples
    ensures var f := LogForm("01", "2025-01-01", Num(10), Num(10), Num(5), collector);
      && LogFor(f, now).points == 5
      && Find(Upsert(logs, LogFor(f, now)), ("01", "2025-01-01")) == Some(LogFor(f, now))
      && Award(temples, "01", LogFor(f, now).points, true, true)["01"]
         == Some(OrZero(temples["01"]) + 5)
  {
  }

  /** The admin "Daily Donations" page: the two remote tables it writes and
      its form state. */
  class DonationsPage {
    var logs: seq<DailyLog>
    var temples: TemplePoints
    var form: LogForm
    /** The messages shown with `alert`, oldest first. */
    var alerts: seq<string>

    ghost predicate Valid()
      reads this
    {
      UniqueKeys(logs)
    }

    constructor (logs: seq<DailyLog>, temples: TemplePoints)
      requires UniqueKeys(logs)
      ensures Valid()
      ensures this.logs == logs && this.temples == temples
      ensures form == BlankForm && alerts == []
    {
      this.logs := logs;
      this.temples := temples;
      form := BlankForm;
      alerts := [];
    }

    /** `upsertLog`: `upsert` is the result of the log upsert, `readOk` whether
        the read of the temple's points returned its row, `update` the result
        of the points write (which the page does not check) and `now` the
        `updated_at` timestamp. */
    method UpsertLog(upsert: WriteResult, readOk: bool, update: WriteResult, now: string)
      requires Valid()
      modifies this
      ensures Valid()
      ensures old(form.templeId) == "" || old(form.day) == "" ==>
        && alerts == old(alerts) + ["Temple and date required"]
        && logs == old(logs) && temples == old(temples) && form == old(form)
      ensures old(form.templeId) != "" && old(form.day) != "" && upsert.WriteFailed? ==>
        && alerts == old(alerts) + [upsert.message]
        && logs == old(logs) && temples == old(temples) && form == old(form)
      ensures old(form.templeId) != "" && old(form.day) != "" && upsert.WriteOk? ==>
        && logs == Upsert(old(logs), LogFor(old(form), now))
        && temples == Award(old(temples), old(form.templeId),
                            CalcPoints(old(form.dry), old(form.wet), old(form.plastic)),
                            readOk, update.WriteOk?)
        && form == BlankForm
        && alerts == old(alerts)
    {
      if form.templeId == "" || form.day == "" {
        alerts := alerts + ["Temple and date required"];
        return;
      }
      var points := CalcPoints(form.dry, form.wet, form.plastic);
      var payload := DailyLog(form.templeId, form.day, form.dry, form.wet, form.plastic,
                              points, form.collectedBy, now);
      if upsert.WriteFailed? {
        alerts := alerts + [upsert.message];
        return;
      }
      logs := Upsert(logs, payload);
      var templeRow: Option<Option<int>> := None;
      if readOk && form.templeId in temples {
        templeRow := Some(temples[form.templeId]);
      }
      var newPoints := (if templeRow.Some? then OrZero(templeRow.value) else 0) + points;
      if update.WriteOk? && form.templeId in temples {
        temples := temples[form.templeId := Some(newPoints)];
      }
      form := BlankForm;
    }
  }
}
