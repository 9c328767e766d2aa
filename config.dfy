/**
 * The configuration object `generateChart` hands to the charting library,
 * as a typed record, and the pure mapping that builds it.
 */
module ChartConfig {
  import opened Wrappers
  import opened Text
  import opened Colors
  import opened Input

  /** The single dataset of the chart. */
  datatype Dataset<N> = Dataset(
    seriesLabel: string,  // the dataset's `label`
    data: seq<N>,
    backgroundColor: seq<HSLA>,
    borderColor: seq<HSLA>,
    borderWidth: nat)

  /** `options.plugins.title`. */
  datatype Title = Title(display: bool, text: string, fontSize: nat)

  /** The chart type, the labels and datasets, and the options with their legend and title plugins. */
  datatype Config<N> = Config(
    chartType: string,
    labels: seq<string>,
    datasets: seq<Dataset<N>>,
    responsive: bool,
    maintainAspectRatio: bool,
    legendDisplay: bool,
    title: Title)

  /** Only pie and doughnut charts show a legend. */
  predicate ShowsLegend(chartType: string) {
    chartType in ["pie", "doughnut"]
  }

  /**
   * The config literal of `generateChart`: the chart type and labels as
   * given, one dataset named after the title holding the data and the two
   * colour lists with border width 2, a responsive chart that does not keep
   * its aspect ratio, a legend only for pie and doughnut charts, and the
   * title always shown in 18-point type.
   */
  function BuildConfig<N>(chartType: string, title: string, labels: seq<string>, data: seq<N>,
                          background: seq<HSLA>, border: seq<HSLA>): (c: Config<N>)
    ensures c.chartType == chartType && c.labels == labels
    ensures c.legendDisplay <==> chartType == "pie" || chartType == "doughnut"
    ensures c.title.display && c.title.text == title && c.title.fontSize == 18
    ensures c.responsive && !c.maintainAspectRatio
    ensures |c.datasets| == 1
    ensures c.datasets[0].seriesLabel == title && c.datasets[0].data == data
    ensures c.datasets[0].backgroundColor == background && c.datasets[0].borderColor == border
    ensures c.datasets[0].borderWidth == 2
  {
    Config(chartType, labels, [Dataset(title, data, background, border, 2)],
           true, false, ShowsLegend(chartType), Title(true, title, 18))
  }

  /**
   * What every chart `generateChart` installs looks like: some labels, one
   * dataset with some data, one background and one border colour per data
   * point, border width 2, and a visible title.
   */
  predicate WellFormed<N>(c: Config<N>) {
    && c.labels != []
    && |c.datasets| == 1
    && c.datasets[0].data != []
    && |c.datasets[0].backgroundColor| == |c.datasets[0].data|
    && |c.datasets[0].borderColor| == |c.datasets[0].data|
    && c.datasets[0].borderWidth == 2
    && c.title.display
  }

  /** The config of a generated chart with its rainbow palette. */
  function GeneratedConfig<N>(chartType: string, title: string, labels: seq<string>, data: seq<N>): Config<N> {
    BuildConfig(chartType, title, labels, data, Backgrounds(|data|), Borders(|data|))
  }

  /**
   * Non-empty labels and data give a well-formed config. The palette has
   * one entry per DATA point, so the number of colours can differ from the
   * number of labels.
   */
  lemma GeneratedConfigWellFormed<N>(chartType: string, title: string, labels: seq<string>, data: seq<N>)
    requires labels != [] && data != []
    ensures WellFormed(GeneratedConfig(chartType, title, labels, data))
    ensures |GeneratedConfig(chartType, title, labels, data).datasets[0].backgroundColor| == |data|
  {
  }

  /** The background palette of six data points: 60 degrees apart. */
  lemma SixBackgrounds()
    ensures Backgrounds(6) == [HSLA(0.0, 70, 60, 0.7), HSLA(60.0, 70, 60, 0.7), HSLA(120.0, 70, 60, 0.7),
                               HSLA(180.0, 70, 60, 0.7), HSLA(240.0, 70, 60, 0.7), HSLA(300.0, 70, 60, 0.7)]
  {
    SixHues();
    var bg := Backgrounds(6);
    assert bg == [bg[0], bg[1], bg[2], bg[3], bg[4], bg[5]];
  }

  /**
   * The chart the page shows on load, from the form's starting values (when
   * its numbers parse): six months, six data points and six background
   * colours 60 degrees apart.
   */
  lemma DefaultChart<N>(chartType: string, title: string, parse: string -> Option<N>)
    requires parse("12").Some? && parse("19").Some? && parse("3").Some?
    requires parse("5").Some? && parse("2").Some?
    ensures GeneratedConfig(chartType, title, ParseLabels(DefaultLabels), ParseData(DefaultData, parse)).labels
         == ["1月", "2月", "3月"] + ["4月", "5月", "6月"]
    ensures |GeneratedConfig(chartType, title, ParseLabels(DefaultLabels), ParseData(DefaultData, parse)).datasets[0].data|
         == 6
    ensures GeneratedConfig(chartType, title, ParseLabels(DefaultLabels), ParseData(DefaultData, parse)).datasets[0].backgroundColor
         == [HSLA(0.0, 70, 60, 0.7), HSLA(60.0, 70, 60, 0.7), HSLA(120.0, 70, 60, 0.7),
             HSLA(180.0, 70, 60, 0.7), HSLA(240.0, 70, 60, 0.7), HSLA(300.0, 70, 60, 0.7)]
  {
    var labels, data := ParseLabels(DefaultLabels), ParseData(DefaultData, parse);
    DefaultLabelsParsed();
    DefaultDataParsed(parse);
    assert |data| == 6;
    SixBackgrounds();
    var c := GeneratedConfig(chartType, title, labels, data);
    assert c.labels == labels && c.datasets[0].data == data && c.datasets[0].backgroundColor == Backgrounds(6);
  }
}
