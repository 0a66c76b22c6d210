/** The accumulator object that the recorder updates in place. */
module MinuteRollups {
  import opened Wrappers
  import opened RollupFold

  class MinuteAccumulator {
    const bucketUs: int
    var sampleCount: nat
    var highZCount: nat
    var highZStatus: string
    var series: map<int, Stat>

    function View(): Minute
      reads this
    {
      Minute(sampleCount, highZCount, highZStatus, series)
    }

    constructor (bucketUs: int)
      ensures this.bucketUs == bucketUs && View() == EMPTY_MINUTE
    {
      this.bucketUs := bucketUs;
      sampleCount, highZCount, highZStatus := 0, 0, "Good";
      series := map[];
    }

    method Update(paths: nat, snapshot: Snapshot)
      modifies this
      ensures View() == Extend(paths, old(View()), snapshot)
    {
      sampleCount := sampleCount + 1;
      var rangeStatus := StatusOf(snapshot.range);
      if snapshot.range.raw == Text("OutOfRange") {
        highZCount := highZCount + 1;
        if StatusRank(rangeStatus) >= StatusRank(highZStatus) {
          highZStatus := rangeStatus;
        }
      }
      ghost var counted := View();
      for index := 0 to paths
        invariant View() == counted.(series := ExtendSeries(index, old(series), snapshot))
      {
        var payload := if index in snapshot.values then snapshot.values[index] else NOTHING;
        ExtendSeriesAt(index, old(series), snapshot, index);
        if index in series {
          var current := UpdateStat(series[index], FiniteNumber(payload.raw), StatusOf(payload));
          series := series[index := current];
        } else {
          var value := FiniteNumber(payload.raw);
          series := series[index := Stat(value, value, value, value, if value.Some? then value.value else 0.0,
                                         if value.Some? then 1 else 0, StatusOf(payload))];
        }
      }
    }

    static method UpdateStat(stat: Stat, value: Option<real>, status: string) returns (current: Stat)
      ensures current == ExtendStat(Some(stat), Reading(value, status))
    {
      current := stat;
      if StatusRank(status) >= StatusRank(current.status) {
        current := current.(status := status);
      }
      if value.None? {
        return;
      }
      if current.count == 0 {
        current := current.(first := value);
        current := current.(minimum := value);
        current := current.(maximum := value);
      }
      current := current.(last := value);
      if current.minimum.None? || value.value < current.minimum.value {
        current := current.(minimum := value);
      }
      if current.maximum.None? || value.value > current.maximum.value {
        current := current.(maximum := value);
      }
      current := current.(total := current.total + value.value);
      current := current.(count := current.count + 1);
    }

    method Encode() returns (body: Body)
      ensures IsEncoding(View(), body)
    {
      var rows := EncodeSeries();
      body := Body(sampleCount, highZCount, highZStatus, rows);
    }

    method EncodeSeries() returns (rows: seq<SeriesRow>)
      ensures ListsSeries(series, series.Keys, rows)
    {
      var rest := series.Keys;
      ghost var done: set<int> := {};
      rows := [];
      while rest != {}
        invariant Listed(series, done, rest, rows)
        decreases |rest|
      {
        var index := NextIndex(rest);
        ListedOneMore(series, done, rest, rows, index);
        rows := rows + [RowOf(index, series[index])];
        rest := rest - {index};
        done := done + {index};
      }
      assert done == series.Keys;
    }

    /** What has been listed lies below what is left. */
    static ghost predicate Listed(series: map<int, Stat>, done: set<int>, rest: set<int>, rows: seq<SeriesRow>) {
      done + rest == series.Keys && ListsSeries(series, done, rows) && AllBelow(rows, rest)
    }

    static lemma ListedOneMore(series: map<int, Stat>, done: set<int>, rest: set<int>, rows: seq<SeriesRow>, index: int)
      requires Listed(series, done, rest, rows) && index in rest && index in series
      requires forall k :: k in rest ==> index <= k
      ensures Listed(series, done + {index}, rest - {index}, rows + [RowOf(index, series[index])])
    {
      ListsOneMore(series, done, rows, index);
      BelowOneMore(rows, rest, index, RowOf(index, series[index]));
    }

    static ghost predicate AllBelow(rows: seq<SeriesRow>, rest: set<int>) {
      forall i, k :: 0 <= i < |rows| && k in rest ==> rows[i].index < k
    }

    static lemma BelowOneMore(rows: seq<SeriesRow>, rest: set<int>, index: int, row: SeriesRow)
      requires AllBelow(rows, rest) && index in rest && (forall k :: k in rest ==> index <= k) && row.index == index
      ensures AllBelow(rows + [row], rest - {index})
    {}

    static lemma ListsOneMore(series: map<int, Stat>, done: set<int>, rows: seq<SeriesRow>, index: int)
      requires ListsSeries(series, done, rows) && index in series
      requires forall i :: 0 <= i < |rows| ==> rows[i].index < index
      ensures ListsSeries(series, done + {index}, rows + [RowOf(index, series[index])])
    {
      var more := rows + [RowOf(index, series[index])];
      forall k | k in done + {index} && k in series
        ensures exists i :: 0 <= i < |more| && more[i].index == k
      {
        if k == index {
          assert more[|rows|].index == k;
        } else {
          var i :| 0 <= i < |rows| && rows[i].index == k;
          assert more[i].index == k;
        }
      }
    }

    /** The next of `sorted(...)`. */
    static method NextIndex(rest: set<int>) returns (index: int)
      requires rest != {}
      ensures index in rest && forall k :: k in rest ==> index <= k
    {
      ghost var first := LeastIndex(rest);
      index :| index in rest && forall k :: k in rest ==> index <= k;
    }

    static lemma {:induction false} LeastIndex(indexes: set<int>) returns (least: int)
      requires indexes != {}
      ensures least in indexes && forall k :: k in indexes ==> least <= k
      decreases |indexes|
    {
      assert (forall k :: k !in indexes) ==> indexes == {};
      var some :| some in indexes;
      assert forall k :: k in indexes ==> k == some || k in indexes - {some};
      if indexes - {some} == {} {
        least := some;
      } else {
        var other := LeastIndex(indexes - {some});
        least := if other < some then other else some;
      }
    }

    static method Decode(bucketUs: int, body: Body) returns (result: MinuteAccumulator)
      ensures fresh(result) && result.bucketUs == bucketUs && result.View() == Decoded(body)
    {
      result := new MinuteAccumulator(bucketUs);
      result.sampleCount := body.sampleCount;
      result.highZCount := body.highZCount;
      result.highZStatus := body.highZStatus;
      for i := 0 to |body.series|
        invariant fresh(result) && result.bucketUs == bucketUs
        invariant result.sampleCount == body.sampleCount && result.highZCount == body.highZCount
        invariant result.highZStatus == body.highZStatus
        invariant result.series == SeriesOf(body.series[..i])
      {
        var row := body.series[i];
        var mean := if row.mean.Some? then row.mean.value else 0.0;
        ghost var seen := body.series[..i + 1];
        assert seen[..|seen| - 1] == body.series[..i] && seen[|seen| - 1] == row;
        assert SeriesOf(seen) == SeriesOf(body.series[..i])[row.index := StatOf(row)];
        var item := Stat(row.first, row.last, row.minimum, row.maximum, mean * row.count as real, row.count, row.status);
        assert item.total == StatOf(row).total;
        result.series := result.series[row.index := item];
        assert body.series[..i + 1] == seen;
      }
      assert body.series[..|body.series|] == body.series;
    }
  }

  /** Through the table and back: an accumulator survives encode and decode. */
  method Reload(accumulator: MinuteAccumulator) returns (result: MinuteAccumulator)
    requires Consistent(accumulator.View())
    ensures fresh(result) && result.View() == accumulator.View()
  {
    var body := accumulator.Encode();
    result := MinuteAccumulator.Decode(accumulator.bucketUs, body);
    DecodeEncode(accumulator.View(), body);
  }
}
