/**
 * The chart page: the `myChart` slot shared by `generateChart` and
 * `downloadImage`. Form fields are parameters, an alert is a returned flag,
 * and a chart instance of the charting library is an object that remembers
 * its config and whether it has been destroyed.
 */
module Page {
  import opened Wrappers
  import opened Text
  import opened Colors
  import opened Input
  import opened ChartConfig
  import opened Export

  /** An instance of the charting library's chart, built from a config. */
  class ChartInstance<N> {
    const config: Config<N>
    var live: bool

    constructor (config: Config<N>)
      ensures this.config == config && live
    {
      this.config := config;
      live := true;
    }

    /** The library's `destroy` call. */
    method Destroy()
      modifies this
      ensures !live
    {
      live := false;
    }
  }

  /** One step in the lives of the chart instances. */
  datatype Event<N> = Created(chart: ChartInstance<N>) | Destroyed(chart: ChartInstance<N>)

  /** The state behind the page's buttons: the `myChart` variable. */
  class ChartPage<N> {
    var myChart: ChartInstance?<N>
    /** The instances created and destroyed so far, in order. */
    ghost var history: seq<Event<N>>

    /** Every instance the page has ever created or destroyed. */
    ghost function Instances(): set<ChartInstance<N>>
      reads this
    {
      set e | e in history :: e.chart
    }

    /**
     * The installed chart, if any, is live, looks like a generated chart and
     * was recorded as created. No instance leaks: every other instance the
     * page has created is recorded as destroyed and is no longer live.
     */
    ghost predicate Valid()
      reads this, myChart, Instances()
    {
      && (myChart != null ==> myChart.live && WellFormed(myChart.config) && Created(myChart) in history)
      && (forall e | e in history && e.chart != myChart :: Destroyed(e.chart) in history && !e.chart.live)
    }

    /** The page starts without a chart. */
    constructor ()
      ensures Valid() && myChart == null && history == []
    {
      myChart := null;
      history := [];
    }

    /**
     * The slot update of `generateChart()`: destroy the installed chart, if
     * any, then install a fresh instance of `config`.
     */
    method Replace(config: Config<N>)
      requires Valid() && WellFormed(config)
      modifies this, myChart
      ensures Valid() && fresh(myChart) && myChart.config == config
      ensures old(myChart) != null ==> !old(myChart).live
      ensures history == old(history)
        + (if old(myChart) != null then [Destroyed(old(myChart))] else [])
        + [Created(myChart)]
    {
      ghost var retired: seq<Event<N>> := if myChart != null then [Destroyed(myChart)] else [];
      if myChart != null {
        myChart.Destroy();
      }
      var chart := new ChartInstance(config);
      myChart, history := chart, history + retired + [Created(chart)];
    }

    /**
     * `generateChart()`. With no label or no number left after parsing it
     * alerts and changes nothing. Otherwise it destroys the installed chart,
     * if there is one, and then installs a fresh chart built from the form.
     */
    method Generate(chartType: string, chartTitle: string, labelsInput: string, dataInput: string,
                    parse: string -> Option<N>)
      returns (alerted: bool)
      requires Valid()
      modifies this, myChart
      ensures Valid()
      ensures alerted <==> ParseLabels(labelsInput) == [] || ParseData(dataInput, parse) == []
      ensures alerted ==> myChart == old(myChart) && history == old(history)
      ensures alerted && myChart != null ==> myChart.live
      ensures !alerted ==> fresh(myChart) && myChart.live
      ensures !alerted ==> (myChart.config ==
        GeneratedConfig(chartType, chartTitle, ParseLabels(labelsInput), ParseData(dataInput, parse)))
      ensures !alerted && old(myChart) != null ==> !old(myChart).live
      ensures !alerted ==> (history == old(history)
        + (if old(myChart) != null then [Destroyed(old(myChart))] else [])
        + [Created(myChart)])
    {
      var labels := ParseLabels(labelsInput);
      var data := ParseData(dataInput, parse);

      if labels == [] || data == [] {
        return true;
      }

      var background, border := GenerateColors(|data|);
      var config := BuildConfig(chartType, chartTitle, labels, data, background, border);
      GeneratedConfigWellFormed(chartType, chartTitle, labels, data);
      Replace(config);
      alerted := false;
    }

    /**
     * `downloadImage(format)`. Without a chart it alerts and exports
     * nothing; otherwise it exports the chart canvas of the given size,
     * scaled by the chosen factor. Nothing on the page changes.
     */
    method DownloadImage(format: string, scale: nat, canvasWidth: nat, canvasHeight: nat)
      returns (alerted: bool, request: Option<ExportRequest>)
      ensures alerted <==> myChart == null
      ensures alerted <==> request == None
      ensures !alerted ==> request == Some(ExportFor(format, scale, canvasWidth, canvasHeight))
    {
      if myChart == null {
        return true, None;
      }
      alerted := false;
      request := Some(ExportFor(format, scale, canvasWidth, canvasHeight));
    }

    /** `downloadPNG()`: a lossless `chart.png` of the scaled canvas, when there is a chart. */
    method DownloadPng(scale: nat, canvasWidth: nat, canvasHeight: nat)
      returns (alerted: bool, request: Option<ExportRequest>)
      ensures alerted <==> myChart == null
      ensures alerted <==> request == None
      ensures !alerted ==> request == Some(ExportRequest(canvasWidth * scale, canvasHeight * scale,
                                                         "image/png", None, "chart.png"))
    {
      alerted, request := DownloadImage("png", scale, canvasWidth, canvasHeight);
      PngExport(scale, canvasWidth, canvasHeight);
    }

    /** `downloadJPG()`: a `chart.jpg` at quality 0.95 of the scaled canvas, when there is a chart. */
    method DownloadJpg(scale: nat, canvasWidth: nat, canvasHeight: nat)
      returns (alerted: bool, request: Option<ExportRequest>)
      ensures alerted <==> myChart == null
      ensures alerted <==> request == None
      ensures !alerted ==> request == Some(ExportRequest(canvasWidth * scale, canvasHeight * scale,
                                                         "image/jpeg", Some(0.95), "chart.jpg"))
    {
      alerted, request := DownloadImage("jpg", scale, canvasWidth, canvasHeight);
      JpgExport(scale, canvasWidth, canvasHeight);
    }
  }
}
