/** The dashboard view: fetch the samples of one device over a range, chart them
    by range, and refresh them on a repeating timer until the view is destroyed. */
module Dashboard {
  import opened Common
  import Selection
  import Sorting
  import opened Aggregation

  /** A point label on the chart's x axis. */
  datatype Label = At(timestamp: int) | Day(day: Weekday) | InMonth(month: MonthKey)

  /** What the chart draws: labels and values, position by position. */
  datatype ChartData = ChartData(labels: seq<Label>, values: seq<real>)

  const EmptyChart: ChartData := ChartData([], [])

  /** The server's description of the selected device, kept as received. */
  type DeviceInfo = string

  /** The body of a chart-data response. */
  datatype ChartReply = ChartReply(deviceData: seq<Sample>, deviceInfo: DeviceInfo)

  const NoDataAlert: string := "No data available for the selected device and time range."
  const FetchFailedAlert: string := "Failed to fetch data. Please log in again."

  /** The most samples the live view keeps. */
  const LiveCap: nat := 6

  /** One point per sample, in sample order. */
  function DailyChart(s: seq<Sample>): ChartData
  {
    ChartData(seq(|s|, i requires 0 <= i < |s| => At(s[i].timestamp)),
              seq(|s|, i requires 0 <= i < |s| => s[i].value as real))
  }

  function WeeklyChart(s: seq<Sample>): ChartData
  {
    var w := Weekly(s);
    ChartData(seq(|w.labels|, i requires 0 <= i < |w.labels| => Day(w.labels[i])), w.values)
  }

  function MonthlyChart(s: seq<Sample>): ChartData
  {
    var m := Monthly(s);
    ChartData(seq(|m.labels|, i requires 0 <= i < |m.labels| => InMonth(m.labels[i])), m.values)
  }

  /** The chart for a range name; an unknown name leaves the chart as it is. */
  function RangeChart(range: string, s: seq<Sample>, current: ChartData): ChartData
  {
    if range == "daily" then DailyChart(s)
    else if range == "weekly" then WeeklyChart(s)
    else if range == "monthly" then MonthlyChart(s)
    else current
  }

  /** The newest batch in front of the kept samples, cut to LiveCap. */
  function MergeLive(batch: seq<Sample>, kept: seq<Sample>): (r: seq<Sample>)
    ensures |r| == if |batch| + |kept| < LiveCap then |batch| + |kept| else LiveCap
    ensures forall i :: 0 <= i < |r| && i < |batch| ==> r[i] == batch[i]
    ensures forall i :: |batch| <= i < |r| ==> r[i] == kept[i - |batch|]
  {
    var all := batch + kept;
    if |all| <= LiveCap then all else all[..LiveCap]
  }

  /** The samples after one live tick: a non-empty batch is merged in; an empty
      batch or a failed request leaves them as they were. */
  function AfterTick(data: seq<Sample>, response: Response<ChartReply>): seq<Sample>
  {
    if response.Received? && |response.data.deviceData| > 0
    then MergeLive(response.data.deviceData, data)
    else data
  }

  /** The samples after a run of live ticks, oldest tick first. */
  function AfterTicks(data: seq<Sample>, responses: seq<Response<ChartReply>>): seq<Sample>
    decreases |responses|
  {
    if responses == [] then data else AfterTicks(AfterTick(data, responses[0]), responses[1..])
  }

  /** However many ticks run, the live samples are either the ones shown before
      the first tick (no tick brought data) or at most LiveCap of them. */
  lemma {:induction false} LiveBufferBounded(data: seq<Sample>, responses: seq<Response<ChartReply>>)
    ensures var r := AfterTicks(data, responses); r == data || |r| <= LiveCap
    ensures |data| <= LiveCap ==> |AfterTicks(data, responses)| <= LiveCap
    decreases |responses|
  {
    if responses != [] {
      var next := AfterTick(data, responses[0]);
      LiveBufferBounded(next, responses[1..]);
    }
  }

  class DashboardComponent {
    var selectedDevice: string
    var selectedRange: string
    var deviceData: seq<Sample>
    var deviceInfo: Option<DeviceInfo>
    /** None until the canvas has been found and the chart built. */
    var lineChart: Option<ChartData>
    var pollingInterval: Option<Handle>
    /** The host's record of this view's intervals that are still running. */
    var liveTimers: set<Handle>
    /** The host's next interval id. */
    var nextHandle: Handle

    /** At most one interval of this view runs, and it is the stored one;
        every handle in use was given out before nextHandle. */
    ghost predicate Valid()
      reads this
    {
      && (forall h :: h in liveTimers ==> h < nextHandle)
      && (pollingInterval.Some? ==> pollingInterval.value < nextHandle)
      && liveTimers <= (if pollingInterval.Some? then {pollingInterval.value} else {})
    }

    constructor ()
      ensures Valid()
      ensures selectedDevice == [] && selectedRange == [] && deviceData == [] && deviceInfo == None
      ensures lineChart == None && pollingInterval == None && liveTimers == {}
    {
      selectedDevice := [];
      selectedRange := [];
      deviceData := [];
      deviceInfo := None;
      lineChart := None;
      pollingInterval := None;
      liveTimers := {};
      nextHandle := 1;
    }

    /** Builds the empty chart once the canvas element is found. */
    method InitChart(canvasFound: bool)
      modifies this`lineChart
      ensures lineChart == if canvasFound then Some(EmptyChart) else old(lineChart)
    {
      if canvasFound {
        lineChart := Some(EmptyChart);
      }
    }

    /** Validates the selection; when it is complete the chart-data request is
        sent, and its answer arrives later through OnChartData. */
    method GenerateReport() returns (alert: Option<string>, requested: bool)
      ensures requested <==> selectedDevice != [] && selectedRange != []
      ensures !requested ==>
        alert == Some(Selection.Message(Selection.Validate(selectedDevice, selectedRange).value))
      ensures requested ==> alert == None
    {
      var invalid := Selection.Validate(selectedDevice, selectedRange);
      if invalid.Some? {
        return Some(Selection.Message(invalid.value)), false;
      }
      return None, true;
    }

    /** The answer to a chart-data request. Samples are stored, charted and
        polled for; otherwise everything is cleared. The handler runs whenever the
        answer arrives, even after OnDestroy, and then starts a fresh interval. */
    method OnChartData(response: Response<ChartReply>) returns (alert: Option<string>)
      requires Valid()
      modifies this`deviceData, this`deviceInfo, this`lineChart,
               this`pollingInterval, this`liveTimers, this`nextHandle
      ensures Valid()
      ensures response.Received? && |response.data.deviceData| > 0 ==>
        && alert == None
        && deviceInfo == Some(response.data.deviceInfo)
        && (old(lineChart).None? ==> deviceData == response.data.deviceData && lineChart == None)
        && (old(lineChart).Some? ==>
              && deviceData == Sorting.SortBy(response.data.deviceData, TimestampOf)
              && lineChart == Some(RangeChart(selectedRange, deviceData, old(lineChart).value)))
        && pollingInterval == Some(old(nextHandle)) && liveTimers == {old(nextHandle)}
      ensures !(response.Received? && |response.data.deviceData| > 0) ==>
        && alert == Some(if response.Received? then NoDataAlert else FetchFailedAlert)
        && deviceData == [] && deviceInfo == None
        && lineChart == (if old(lineChart).Some? then Some(EmptyChart) else None)
        && pollingInterval == old(pollingInterval) && liveTimers == old(liveTimers)
    {
      if response.Received? && |response.data.deviceData| > 0 {
        deviceData := response.data.deviceData;
        deviceInfo := Some(response.data.deviceInfo);
        UpdateChartBasedOnRange();
        StartLiveUpdates();
        alert := None;
      } else {
        alert := Some(if response.Received? then NoDataAlert else FetchFailedAlert);
        deviceData := [];
        deviceInfo := None;
        UpdateChart();
      }
    }

    /** Sorts the samples by timestamp and redraws the chart for the selected range;
        without a chart it does nothing, not even the sort. */
    method UpdateChartBasedOnRange()
      modifies this`deviceData, this`lineChart
      ensures old(lineChart).None? ==> deviceData == old(deviceData) && lineChart == None
      ensures old(lineChart).Some? ==>
        && deviceData == Sorting.SortBy(old(deviceData), TimestampOf)
        && lineChart == Some(RangeChart(selectedRange, deviceData, old(lineChart).value))
    {
      if lineChart.None? {
        return;
      }
      deviceData := Sorting.SortBy(deviceData, TimestampOf);
      if selectedRange == "daily" {
        UpdateChart();
      } else if selectedRange == "weekly" {
        UpdateChartForWeekly();
      } else if selectedRange == "monthly" {
        UpdateChartForMonthly();
      }
    }

    /** One point per sample, labelled by its timestamp, in the order of deviceData. */
    method UpdateChart()
      modifies this`lineChart
      ensures lineChart == if old(lineChart).None? then None else Some(DailyChart(deviceData))
      ensures lineChart.Some? ==>
        && |lineChart.value.labels| == |lineChart.value.values| == |deviceData|
        && forall i :: 0 <= i < |deviceData| ==>
             lineChart.value.labels[i] == At(deviceData[i].timestamp)
             && lineChart.value.values[i] == deviceData[i].value as real
    {
      if lineChart.None? {
        return;
      }
      lineChart := Some(DailyChart(deviceData));
    }

    method UpdateChartForWeekly()
      modifies this`lineChart
      ensures lineChart == if old(lineChart).None? then None else Some(WeeklyChart(deviceData))
    {
      if lineChart.None? {
        return;
      }
      lineChart := Some(WeeklyChart(deviceData));
    }

    method UpdateChartForMonthly()
      modifies this`lineChart
      ensures lineChart == if old(lineChart).None? then None else Some(MonthlyChart(deviceData))
    {
      if lineChart.None? {
        return;
      }
      lineChart := Some(MonthlyChart(deviceData));
    }

    /** Cancels the running interval, if any, and starts a new one: afterwards
        exactly one interval of this view runs. */
    method StartLiveUpdates()
      requires Valid()
      modifies this`pollingInterval, this`liveTimers, this`nextHandle
      ensures Valid()
      ensures pollingInterval == Some(old(nextHandle)) && liveTimers == {old(nextHandle)}
      ensures old(pollingInterval).Some? ==> old(pollingInterval).value !in liveTimers
    {
      if pollingInterval.Some? {
        liveTimers := liveTimers - {pollingInterval.value};
      }
      var h := nextHandle;
      nextHandle := nextHandle + 1;
      pollingInterval := Some(h);
      liveTimers := liveTimers + {h};
    }

    /** One firing of a running interval, with the outcome of its request. */
    method LiveTick(timer: Handle, response: Response<ChartReply>)
      requires timer in liveTimers
      modifies this`deviceData, this`lineChart
      ensures deviceData == AfterTick(old(deviceData), response)
      ensures response.Received? && |response.data.deviceData| > 0 ==>
        && |deviceData| <= LiveCap
        && lineChart == (if old(lineChart).None? then None else Some(DailyChart(deviceData)))
      ensures !(response.Received? && |response.data.deviceData| > 0) ==>
        deviceData == old(deviceData) && lineChart == old(lineChart)
    {
      if response.Received? && |response.data.deviceData| > 0 {
        deviceData := MergeLive(response.data.deviceData, deviceData);
        UpdateChart();
      }
    }

    /** Cancels the running interval: immediately afterwards no interval of this
        view runs. The stored handle is not reset, and a chart-data answer still
        in flight is not cancelled (see OnChartData). */
    method OnDestroy()
      requires Valid()
      modifies this`liveTimers
      ensures Valid()
      ensures liveTimers == {}
    {
      if pollingInterval.Some? {
        liveTimers := liveTimers - {pollingInterval.value};
      }
    }
  }
}
