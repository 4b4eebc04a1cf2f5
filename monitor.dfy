/** The monitoring session: the per-session state the dashboard keeps across
    refresh cycles (three rolling histories and the log of unsafe alerts), and
    one evaluation cycle over a new reading. */
module Monitor {
  import opened Quality
  import opened History

  /** One logged alert: the wall-clock time as formatted text (HH:MM:SS),
      the monitoring location, and the unsafe reading. */
  datatype AlertRecord = AlertRecord(time: string, location: string, ph: real, turbidity: real, tds: int)

  /** The alert step of a cycle: one record is appended when the status is
      Unsafe; otherwise the log is left as it was. */
  function Logged(log: seq<AlertRecord>, status: Status, rec: AlertRecord): (r: seq<AlertRecord>)
    ensures |log| <= |r| && r[..|log|] == log
    ensures |r| == |log| + 1 <==> status == Unsafe
    ensures |r| == |log| <==> status != Unsafe
    ensures status == Unsafe ==> r[|log|] == rec
  {
    if status == Unsafe then log + [rec] else log
  }

  /** The log after a run of cycles, each given by its status and the record
      it would log. */
  function LogAll(log: seq<AlertRecord>, cycles: seq<(Status, AlertRecord)>): seq<AlertRecord>
    decreases |cycles|
  {
    if cycles == [] then log else LogAll(Logged(log, cycles[0].0, cycles[0].1), cycles[1..])
  }

  /** The records of the Unsafe cycles of a run, in cycle order. */
  function UnsafeRecords(cycles: seq<(Status, AlertRecord)>): seq<AlertRecord>
    decreases |cycles|
  {
    if cycles == [] then []
    else (if cycles[0].0 == Unsafe then [cycles[0].1] else []) + UnsafeRecords(cycles[1..])
  }

  /** Over any run the log is the earlier log followed by one record per
      Unsafe cycle, in cycle order: nothing is removed, reordered or merged. */
  lemma {:induction false} LogAllAppendsUnsafe(log: seq<AlertRecord>, cycles: seq<(Status, AlertRecord)>)
    ensures LogAll(log, cycles) == log + UnsafeRecords(cycles)
    decreases |cycles|
  {
    if cycles != [] {
      var (status, rec) := cycles[0];
      var rest := cycles[1..];
      assert LogAll(log, cycles) == LogAll(Logged(log, status, rec), rest);
      LogAllAppendsUnsafe(Logged(log, status, rec), rest);
      if status == Unsafe {
        assert UnsafeRecords(cycles) == [rec] + UnsafeRecords(rest);
        assert (log + [rec]) + UnsafeRecords(rest) == log + ([rec] + UnsafeRecords(rest));
      } else {
        assert UnsafeRecords(cycles) == [] + UnsafeRecords(rest);
      }
    }
  }

  /** Three cycles on the same Unsafe reading log three identical records. */
  lemma RepeatedUnsafeNotDeduplicated(log: seq<AlertRecord>, rec: AlertRecord)
    ensures LogAll(log, [(Unsafe, rec), (Unsafe, rec), (Unsafe, rec)]) == log + [rec, rec, rec]
  {
    var cycles := [(Unsafe, rec), (Unsafe, rec), (Unsafe, rec)];
    LogAllAppendsUnsafe(log, cycles);
    var rest := cycles[1..];
    var last := rest[1..];
    assert last[1..] == [];
    assert UnsafeRecords(last) == [rec];
    assert UnsafeRecords(rest) == [rec, rec];
  }

  /** A run of Safe and Moderate cycles leaves the log unchanged. */
  lemma {:induction false} NoAlertWithoutUnsafe(log: seq<AlertRecord>, cycles: seq<(Status, AlertRecord)>)
    requires forall i :: 0 <= i < |cycles| ==> cycles[i].0 != Unsafe
    ensures LogAll(log, cycles) == log
    decreases |cycles|
  {
    if cycles != [] {
      NoAlertWithoutUnsafe(log, cycles[1..]);
    }
  }

  class Session {
    var phHistory: seq<real>
    var turbHistory: seq<real>
    var tdsHistory: seq<int>
    var alertLog: seq<AlertRecord>

    /** The histories move in lockstep and never exceed the window. */
    ghost predicate Valid()
      reads this
    {
      |phHistory| == |turbHistory| == |tdsHistory| <= Window
    }

    /** A new session starts with empty histories and an empty log. */
    constructor ()
      ensures Valid()
      ensures phHistory == [] && turbHistory == [] && tdsHistory == []
      ensures alertLog == []
    {
      phHistory, turbHistory, tdsHistory := [], [], [];
      alertLog := [];
    }

    /** One refresh cycle on the reading (ph, turb, tds), taken at location
        at wall-clock time now: record the reading in the histories, classify
        it, score it, and log an alert when it is Unsafe. */
    method Cycle(ph: real, turb: real, tds: int, location: string, now: string)
      returns (status: Status, wqi: int)
      requires Valid()
      modifies this
      ensures Valid()
      ensures phHistory == Slide(old(phHistory), ph)
      ensures turbHistory == Slide(old(turbHistory), turb)
      ensures tdsHistory == Slide(old(tdsHistory), tds)
      ensures status == Classify(ph, turb, tds)
      ensures wqi == Wqi(ph, turb, tds) && 0 <= wqi <= 100
      ensures alertLog == Logged(old(alertLog), status, AlertRecord(now, location, ph, turb, tds))
    {
      phHistory := phHistory + [ph];
      turbHistory := turbHistory + [turb];
      tdsHistory := tdsHistory + [tds];

      phHistory := Last(phHistory, Window);
      turbHistory := Last(turbHistory, Window);
      tdsHistory := Last(tdsHistory, Window);

      status := Classify(ph, turb, tds);
      wqi := Wqi(ph, turb, tds);

      if status == Unsafe {
        alertLog := alertLog + [AlertRecord(now, location, ph, turb, tds)];
      }
    }
  }
}
