/**
 The depth legend of the map.

 The legend's add-hook walks the list of bucket lower bounds and, for each
 position, appends the label at that position plus a `<br>` to the
 legend's markup. The label list holds a header and one swatch line per
 depth band, so it is one entry longer than the bound list: as written, the
 header and only the first three bands are emitted. The markup is modelled
 as the concatenation of the assigned strings, rather than a mutation of a
 DOM element.
 */
module Legend {
  import Depth

  /** Lower bounds of the depth bands, as the add-hook lists them. */
  const Depths: seq<real> := [0.0, 20.0, 50.0, 100.0]

  const Header: string := "<strong>Depth (km)</strong>"

  /** A colour swatch followed by its caption. */
  function Swatch(hex: string, caption: string): string {
    "<span style=\"background-color:" + hex + "\"></span> " + caption
  }

  /** The label list of the add-hook: a header, then one swatch per band. */
  const Labels: seq<string> := [
    Header,
    "<span style=\"background-color:#00FF00\"></span> <20",
    "<span style=\"background-color:#FFFF00\"></span> 20-50",
    "<span style=\"background-color:#FF7F00\"></span> 50-100",
    "<span style=\"background-color:#FF0000\"></span> >100"
  ]

  /** The bands in the order the legend lists them. */
  const Bands: seq<Depth.Bucket> := [Depth.Shallow, Depth.Intermediate, Depth.Deep, Depth.VeryDeep]

  /** A label followed by the line break the add-hook appends. */
  function Line(text: string): string {
    text + "<br>"
  }

  /** The markup of a sequence of labels, each on its own line. */
  function Join(labels: seq<string>): string {
    if labels == [] then "" else Line(labels[0]) + Join(labels[1..])
  }

  /** Appending one label to the list appends its line to the markup. */
  lemma {:induction false} JoinAppend(labels: seq<string>, text: string)
    ensures Join(labels + [text]) == Join(labels) + Line(text)
  {
    if labels == [] {
      assert [] + [text] == [text];
    } else {
      calc {
        Join(labels + [text]);
        { assert (labels + [text])[1..] == labels[1..] + [text]; }
        Line(labels[0]) + Join(labels[1..] + [text]);
        { JoinAppend(labels[1..], text); }
        Line(labels[0]) + (Join(labels[1..]) + Line(text));
      }
    }
  }

  /** Markup of a concatenation is the concatenation of the markups. */
  lemma {:induction false} JoinConcat(a: seq<string>, b: seq<string>)
    ensures Join(a + b) == Join(a) + Join(b)
    decreases |a|
  {
    if a == [] {
      assert [] + b == b;
    } else {
      assert (a + b)[1..] == a[1..] + b;
      JoinConcat(a[1..], b);
    }
  }

  /** Indexing a JavaScript array past its end yields `undefined`, printed as such. */
  function LabelAt(labels: seq<string>, i: nat): string {
    if i < |labels| then labels[i] else "undefined"
  }

  /** The labels the add-hook emits: one per entry of the iterated list, read from `labels` at the same index. */
  function Emitted<T>(items: seq<T>, labels: seq<string>): (out: seq<string>)
    ensures |out| == |items|
    ensures |items| <= |labels| ==> out == labels[..|items|]
    ensures |items| > |labels| ==> out[..|labels|] == labels
    ensures |items| > |labels| ==> out[|labels|..] == seq(|items| - |labels|, _ => "undefined")
  {
    seq(|items|, i requires 0 <= i < |items| => LabelAt(labels, i))
  }

  /**
   The add-hook's loop: for every entry of the iterated list, append the
   label at the same index and a line break to the markup, starting from an
   empty element.
   */
  method RenderLegend<T>(items: seq<T>, labels: seq<string>) returns (html: string)
    ensures html == Join(Emitted(items, labels))
    ensures |items| <= |labels| ==> html == Join(labels[..|items|])
  {
    var out := Emitted(items, labels);
    html := "";
    var index := 0;
    while index < |items|
      invariant 0 <= index <= |items|
      invariant html == Join(out[..index])
    {
      JoinAppend(out[..index], LabelAt(labels, index));
      assert out[..index + 1] == out[..index] + [LabelAt(labels, index)];
      html := html + Line(LabelAt(labels, index));
      index := index + 1;
    }
    assert out[..|items|] == out;
  }

  /**
   The legend as written: the loop runs over the four bounds, so it emits the
   header and the first three bands only; the `>100` band never appears and
   its markup is exactly what the full list would add.
   */
  lemma LegendAsWritten()
    ensures Emitted(Depths, Labels) == Labels[..4]
    ensures |Emitted(Depths, Labels)| == 4
    ensures Labels[4] !in Emitted(Depths, Labels)
    ensures Join(Labels) == Join(Emitted(Depths, Labels)) + Line(Swatch(Depth.Red, Depth.Bucket.VeryDeep.Caption()))
  {
    assert Labels == Labels[..4] + [Labels[4]];
    JoinAppend(Labels[..4], Labels[4]);
  }

  /** The label list's swatch lines are exactly the bands' colours and captions, in band order. */
  lemma LabelIsSwatch(k: nat)
    requires k < |Bands|
    ensures Labels[k + 1] == Swatch(Bands[k].Hex(), Bands[k].Caption())
  {
    if k == 0 { ShallowLabel(); }
    else if k == 1 { IntermediateLabel(); }
    else if k == 2 { DeepLabel(); }
    else { VeryDeepLabel(); }
  }

  lemma ShallowLabel()
    ensures Labels[1] == Swatch(Depth.Green, "<20")
  {
    assert Swatch(Depth.Green, "<20") == "<span style=\"background-color:#00FF00\"></span> <20";
  }

  lemma IntermediateLabel()
    ensures Labels[2] == Swatch(Depth.Yellow, "20-50")
  {
    assert Swatch(Depth.Yellow, "20-50") == "<span style=\"background-color:#FFFF00\"></span> 20-50";
  }

  lemma DeepLabel()
    ensures Labels[3] == Swatch(Depth.Orange, "50-100")
  {
    assert Swatch(Depth.Orange, "50-100") == "<span style=\"background-color:#FF7F00\"></span> 50-100";
  }

  lemma VeryDeepLabel()
    ensures Labels[4] == Swatch(Depth.Red, ">100")
  {
    assert Swatch(Depth.Red, ">100") == "<span style=\"background-color:#FF0000\"></span> >100";
  }

  /**
   The intended legend: the header, then every band in order, each drawn
   in the colour the classifier gives to the depths of that band.
   */
  function LegendLines(): (lines: seq<string>)
    ensures |lines| == 1 + |Bands|
    ensures lines[0] == Header
    ensures forall k :: 0 <= k < |Bands| ==> lines[k + 1] == Swatch(Bands[k].Hex(), Bands[k].Caption())
  {
    forall k | 0 <= k < |Bands|
      ensures Labels[k + 1] == Swatch(Bands[k].Hex(), Bands[k].Caption())
    {
      LabelIsSwatch(k);
    }
    Labels
  }

  /** The corrected add-hook: the loop runs over the label list itself, so every label is emitted. */
  method RenderLegendFixed() returns (html: string)
    ensures html == Join(LegendLines())
    ensures html == Line(Header) + Join(seq(|Bands|, k requires 0 <= k < |Bands| => Swatch(Bands[k].Hex(), Bands[k].Caption())))
  {
    var lines := LegendLines();
    html := RenderLegend(lines, lines);
    assert lines[..|lines|] == lines;
    assert lines == [Header] + lines[1..];
    JoinConcat([Header], lines[1..]);
    assert lines[1..] == seq(|Bands|, k requires 0 <= k < |Bands| => Swatch(Bands[k].Hex(), Bands[k].Caption()));
  }

  /**
   Each swatch line carries the colour the classifier assigns to the depths
   of its band; the interior depths 10, 30, 75 and 150 km are examples.
   */
  lemma SwatchesMatchClassifier(k: nat, depth: real)
    requires k < |Bands|
    requires Bands[k].Contains(depth)
    ensures LegendLines()[k + 1] == Swatch(Depth.GetColor(depth), Bands[k].Caption())
  {
    Depth.ColorIdentifiesBucket(Bands[k], depth);
  }

  lemma InteriorDepthExamples()
    ensures LegendLines()[1] == Swatch(Depth.GetColor(10.0), "<20")
    ensures LegendLines()[2] == Swatch(Depth.GetColor(30.0), "20-50")
    ensures LegendLines()[3] == Swatch(Depth.GetColor(75.0), "50-100")
    ensures LegendLines()[4] == Swatch(Depth.GetColor(150.0), ">100")
  {
    SwatchesMatchClassifier(0, 10.0);
    SwatchesMatchClassifier(1, 30.0);
    SwatchesMatchClassifier(2, 75.0);
    SwatchesMatchClassifier(3, 150.0);
  }
}
