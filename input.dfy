/**
 * Reading the two text areas of the form. Both are cut at every comma and
 * each piece is trimmed; the labels are the pieces that are not empty, the
 * data the pieces that parse as numbers, both in input order. The number
 * parser is a parameter: `parse(t) == None` means that the float parser
 * gives NaN for `t`.
 */
module Input {
  import opened Wrappers
  import opened Text

  /** The text areas are comma-separated lists. */
  const Comma: char := ','

  /** What one segment contributes to the labels: its trimmed text, unless empty. */
  function LabelOf(segment: string): seq<string> {
    var t := Trim(segment);
    if t == [] then [] else [t]
  }

  /** What one segment contributes to the data: its trimmed text parsed, unless `NaN`. */
  function NumberOf<N>(segment: string, parse: string -> Option<N>): seq<N> {
    match parse(Trim(segment))
    case Some(n) => [n]
    case None => []
  }

  /** Trims every segment and keeps the non-empty results, in order. */
  function KeepLabels(segments: seq<string>): (labels: seq<string>)
    ensures |labels| <= |segments|
  {
    if segments == [] then [] else LabelOf(segments[0]) + KeepLabels(segments[1..])
  }

  /** Trims and parses every segment and keeps the numbers, in order. */
  function KeepNumbers<N>(segments: seq<string>, parse: string -> Option<N>): (data: seq<N>)
    ensures |data| <= |segments|
  {
    if segments == [] then [] else NumberOf(segments[0], parse) + KeepNumbers(segments[1..], parse)
  }

  /** The labels of the form: every one non-empty and trimmed, at most one per segment. */
  function ParseLabels(input: string): (labels: seq<string>)
    ensures |labels| <= |Split(input, Comma)|
  {
    KeepLabels(Split(input, Comma))
  }

  /** The data points of the form: at most one per segment. */
  function ParseData<N>(input: string, parse: string -> Option<N>): (data: seq<N>)
    ensures |data| <= |Split(input, Comma)|
  {
    KeepNumbers(Split(input, Comma), parse)
  }

  /** Every label is non-empty and has no whitespace at either end. */
  lemma {:induction false} KeepLabelsTrimmed(segments: seq<string>)
    ensures forall k :: 0 <= k < |KeepLabels(segments)| ==>
      KeepLabels(segments)[k] != [] && NoEdgeWhitespace(KeepLabels(segments)[k])
  {
    if segments != [] {
      KeepLabelsTrimmed(segments[1..]);
      var head, rest := LabelOf(segments[0]), KeepLabels(segments[1..]);
      assert KeepLabels(segments) == head + rest;
      assert forall k :: |head| <= k < |head| + |rest| ==> (head + rest)[k] == rest[k - |head|];
    }
  }

  lemma {:induction false} KeepLabelsAppend(xs: seq<string>, ys: seq<string>)
    ensures KeepLabels(xs + ys) == KeepLabels(xs) + KeepLabels(ys)
  {
    if xs == [] {
      assert xs + ys == ys;
    } else {
      var zs := xs + ys;
      assert zs[0] == xs[0] && zs[1..] == xs[1..] + ys;
      var head, tail := LabelOf(xs[0]), KeepLabels(xs[1..]);
      assert KeepLabels(xs) == head + tail;
      assert KeepLabels(zs) == head + KeepLabels(xs[1..] + ys);
      KeepLabelsAppend(xs[1..], ys);
      assert head + (tail + KeepLabels(ys)) == (head + tail) + KeepLabels(ys);
    }
  }

  lemma {:induction false} KeepNumbersAppend<N>(xs: seq<string>, ys: seq<string>, parse: string -> Option<N>)
    ensures KeepNumbers(xs + ys, parse) == KeepNumbers(xs, parse) + KeepNumbers(ys, parse)
  {
    if xs == [] {
      assert xs + ys == ys;
    } else {
      var zs := xs + ys;
      assert zs[0] == xs[0] && zs[1..] == xs[1..] + ys;
      var head, tail := NumberOf(xs[0], parse), KeepNumbers(xs[1..], parse);
      assert KeepNumbers(xs, parse) == head + tail;
      assert KeepNumbers(zs, parse) == head + KeepNumbers(xs[1..] + ys, parse);
      KeepNumbersAppend(xs[1..], ys, parse);
      assert head + (tail + KeepNumbers(ys, parse)) == (head + tail) + KeepNumbers(ys, parse);
    }
  }

  /**
   * Every parsed label is non-empty and trimmed, and there are at most as
   * many labels as comma-separated segments.
   */
  lemma ParseLabelsTrimmed(input: string)
    ensures |ParseLabels(input)| <= |Split(input, Comma)|
    ensures forall k :: 0 <= k < |ParseLabels(input)| ==>
      ParseLabels(input)[k] != [] && NoEdgeWhitespace(ParseLabels(input)[k])
  {
    KeepLabelsTrimmed(Split(input, Comma));
  }

  /**
   * Labels keep input order: the labels of `a,b` are those of `a`
   * followed by those of `b`.
   */
  lemma ParseLabelsConcat(a: string, b: string)
    ensures ParseLabels(a + [Comma] + b) == ParseLabels(a) + ParseLabels(b)
  {
    SplitAppend(a, b, Comma);
    KeepLabelsAppend(Split(a, Comma), Split(b, Comma));
  }

  /** A single segment gives its trimmed text as a label, unless that is empty. */
  lemma ParseLabelsSegment(s: string)
    requires Comma !in s
    ensures ParseLabels(s) == if Trim(s) == [] then [] else [Trim(s)]
  {
    SplitNoSeparator(s, Comma);
  }

  /**
   * Data keep input order: the numbers of `a,b` are those of `a` followed
   * by those of `b`.
   */
  lemma ParseDataConcat<N>(a: string, b: string, parse: string -> Option<N>)
    ensures ParseData(a + [Comma] + b, parse) == ParseData(a, parse) + ParseData(b, parse)
  {
    SplitAppend(a, b, Comma);
    KeepNumbersAppend(Split(a, Comma), Split(b, Comma), parse);
  }

  /** A single segment gives one number when its trimmed text parses, none otherwise. */
  lemma ParseDataSegment<N>(s: string, parse: string -> Option<N>)
    requires Comma !in s
    ensures ParseData(s, parse) == match parse(Trim(s)) case Some(n) => [n] case None => []
  {
    SplitNoSeparator(s, Comma);
  }

  /** No label is left exactly when every segment trims to nothing. */
  lemma {:induction false} KeepLabelsEmpty(segments: seq<string>)
    ensures KeepLabels(segments) == [] <==> forall k :: 0 <= k < |segments| ==> Trim(segments[k]) == []
  {
    if segments != [] {
      KeepLabelsEmpty(segments[1..]);
      assert KeepLabels(segments) == LabelOf(segments[0]) + KeepLabels(segments[1..]);
      assert forall k :: 1 <= k < |segments| ==> segments[k] == segments[1..][k - 1];
    }
  }

  /** No number is left exactly when no segment parses. */
  lemma {:induction false} KeepNumbersEmpty<N>(segments: seq<string>, parse: string -> Option<N>)
    ensures KeepNumbers(segments, parse) == [] <==>
      forall k :: 0 <= k < |segments| ==> parse(Trim(segments[k])).None?
  {
    if segments != [] {
      KeepNumbersEmpty(segments[1..], parse);
      var head, rest := NumberOf(segments[0], parse), KeepNumbers(segments[1..], parse);
      assert KeepNumbers(segments, parse) == head + rest;
      assert head == [] <==> parse(Trim(segments[0])).None?;
      assert forall k :: 1 <= k < |segments| ==> segments[k] == segments[1..][k - 1];
    }
  }

  /** Three trimmed, comma-free, non-empty segments give three labels, in order. */
  lemma ThreeLabels(a: string, b: string, c: string)
    requires Comma !in a && Comma !in b && Comma !in c
    requires a != [] && b != [] && c != []
    requires NoEdgeWhitespace(a) && NoEdgeWhitespace(b) && NoEdgeWhitespace(c)
    ensures ParseLabels(a + [Comma] + b + [Comma] + c) == [a, b, c]
  {
    TrimNoEdge(a);
    TrimNoEdge(b);
    TrimNoEdge(c);
    ParseLabelsSegment(a);
    ParseLabelsSegment(b);
    ParseLabelsSegment(c);
    ParseLabelsConcat(a + [Comma] + b, c);
    ParseLabelsConcat(a, b);
  }

  /** Three comma-free trimmed segments that all parse give three numbers, in order. */
  lemma ThreeNumbers<N>(a: string, b: string, c: string, parse: string -> Option<N>)
    requires Comma !in a && Comma !in b && Comma !in c
    requires NoEdgeWhitespace(a) && NoEdgeWhitespace(b) && NoEdgeWhitespace(c)
    requires parse(a).Some? && parse(b).Some? && parse(c).Some?
    ensures ParseData(a + [Comma] + b + [Comma] + c, parse)
         == [parse(a).value] + [parse(b).value] + [parse(c).value]
  {
    TrimNoEdge(a);
    TrimNoEdge(b);
    TrimNoEdge(c);
    ParseDataSegment(a, parse);
    ParseDataSegment(b, parse);
    ParseDataSegment(c, parse);
    ParseDataConcat(a + [Comma] + b, c, parse);
    ParseDataConcat(a, b, parse);
  }

  /**
   * A field left blank, or holding only whitespace, gives no label and no
   * number, provided the parser rejects the empty string as `parseFloat`
   * does (it gives `NaN`). Either field alone makes the page alert.
   */
  lemma BlankField<N>(s: string, parse: string -> Option<N>)
    requires AllWhitespace(s) && parse("") == None
    ensures ParseLabels(s) == [] && ParseData(s, parse) == []
  {
    TrimBlank(s);
    ParseLabelsSegment(s);
    ParseDataSegment(s, parse);
  }

  /** The text the form's label field starts with: six months. */
  const DefaultLabels: string := "1月,2月,3月,4月,5月,6月"

  /** The text the form's data field starts with. */
  const DefaultData: string := "12,19,3,5,2,3"

  /** The first three months. */
  lemma FirstMonths()
    ensures ParseLabels("1月,2月,3月") == ["1月", "2月", "3月"]
  {
    assert NoEdgeWhitespace("1月") && NoEdgeWhitespace("2月") && NoEdgeWhitespace("3月");
    ThreeLabels("1月", "2月", "3月");
    assert "1月" + [Comma] + "2月" + [Comma] + "3月" == "1月,2月,3月";
  }

  /** The last three months. */
  lemma LastMonths()
    ensures ParseLabels("4月,5月,6月") == ["4月", "5月", "6月"]
  {
    assert NoEdgeWhitespace("4月") && NoEdgeWhitespace("5月") && NoEdgeWhitespace("6月");
    ThreeLabels("4月", "5月", "6月");
    assert "4月" + [Comma] + "5月" + [Comma] + "6月" == "4月,5月,6月";
  }

  /** The form's starting labels give the six months, in order. */
  lemma DefaultLabelsParsed()
    ensures ParseLabels(DefaultLabels) == ["1月", "2月", "3月"] + ["4月", "5月", "6月"]
  {
    FirstMonths();
    LastMonths();
    ParseLabelsConcat("1月,2月,3月", "4月,5月,6月");
    DefaultLabelsHalves();
  }

  /** The starting labels are two halves of three months around a comma. */
  lemma DefaultLabelsHalves()
    ensures "1月,2月,3月" + [Comma] + "4月,5月,6月" == DefaultLabels
  {
  }

  /** The first half of the starting data. */
  lemma FirstNumbers<N>(parse: string -> Option<N>)
    requires parse("12").Some? && parse("19").Some? && parse("3").Some?
    ensures ParseData("12,19,3", parse) == [parse("12").value] + [parse("19").value] + [parse("3").value]
  {
    assert NoEdgeWhitespace("12") && NoEdgeWhitespace("19") && NoEdgeWhitespace("3");
    ThreeNumbers("12", "19", "3", parse);
    assert "12" + [Comma] + "19" + [Comma] + "3" == "12,19,3";
  }

  /** The second half of the starting data. */
  lemma LastNumbers<N>(parse: string -> Option<N>)
    requires parse("5").Some? && parse("2").Some? && parse("3").Some?
    ensures ParseData("5,2,3", parse) == [parse("5").value] + [parse("2").value] + [parse("3").value]
  {
    assert NoEdgeWhitespace("5") && NoEdgeWhitespace("2") && NoEdgeWhitespace("3");
    ThreeNumbers("5", "2", "3", parse);
    assert "5" + [Comma] + "2" + [Comma] + "3" == "5,2,3";
  }

  /** The form's starting data give six numbers, in order, when each of them parses. */
  lemma DefaultDataParsed<N>(parse: string -> Option<N>)
    requires parse("12").Some? && parse("19").Some? && parse("3").Some?
    requires parse("5").Some? && parse("2").Some?
    ensures ParseData(DefaultData, parse)
         == [parse("12").value] + [parse("19").value] + [parse("3").value]
          + ([parse("5").value] + [parse("2").value] + [parse("3").value])
  {
    FirstNumbers(parse);
    LastNumbers(parse);
    ParseDataConcat("12,19,3", "5,2,3", parse);
    DefaultDataHalves();
  }

  /** The starting data are two halves of three numbers around a comma. */
  lemma DefaultDataHalves()
    ensures "12,19,3" + [Comma] + "5,2,3" == DefaultData
  {
  }
}
