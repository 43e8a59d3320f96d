/**
 * What one call of renderScene(scene, region) selects and annotates, and the
 * rules of the hover tooltip and of the button and dropdown wiring.
 */
module Scene {
  import opened Wrappers
  import opened Seqs
  import opened Cars

  /** The region value that means "no filter"; also renderScene's default. */
  const AllRegions: string := "All"

  const Scene1Caption: string := "Each dot is a car. X = horsepower, Y = fuel efficiency."
  const Scene2Caption: string := "Japanese cars cluster top-left: high MPG, low power."
  const WorstPrefix: string := "Worst MPG: "

  /** A callout, anchored in data coordinates (horsepower, miles per gallon). */
  datatype Annotation = Annotation(note: string, x: real, y: real)

  /** The TypeError that reducing an empty array without an initial value raises. */
  datatype RenderError = ReduceOfEmptyArray

  /** What a render puts on the chart: one marker per drawn record, then the annotation step. */
  datatype Frame = Frame(drawn: seq<Record>, annotation: Result<Option<Annotation>, RenderError>)

  function OriginIs(region: string): Record -> bool
  {
    (d: Record) => d.origin == region
  }

  /** The records of one origin, in their original order. */
  function FilterRegion(data: seq<Record>, region: string): (r: seq<Record>)
    ensures forall i :: 0 <= i < |r| ==> r[i].origin == region && r[i] in data
    ensures forall i :: 0 <= i < |data| && data[i].origin == region ==> data[i] in r
  {
    Filter(data, OriginIs(region))
  }

  /** The records renderScene draws. */
  function Drawn(data: seq<Record>, scene: int, region: string): (drawn: seq<Record>)
    ensures |drawn| <= |data|
    ensures forall i :: 0 <= i < |drawn| ==> drawn[i] in data
  {
    if scene == 4 && region != AllRegions then FilterRegion(data, region) else data
  }

  /** The reduce step of scene 3: keep the accumulator only when it is strictly smaller. */
  function LessMpg(a: Record, b: Record): (r: Record)
    ensures r == a || r == b
    ensures r.milesPerGallon <= a.milesPerGallon && r.milesPerGallon <= b.milesPerGallon
    ensures a.milesPerGallon == b.milesPerGallon ==> r == b
  {
    if a.milesPerGallon < b.milesPerGallon then a else b
  }

  /** `data[k]` has the least miles per gallon, and every later record has strictly more. */
  ghost predicate IsLastMinimum(data: seq<Record>, k: int)
  {
    && 0 <= k < |data|
    && (forall j :: 0 <= j < |data| ==> data[k].milesPerGallon <= data[j].milesPerGallon)
    && (forall j :: k < j < |data| ==> data[k].milesPerGallon < data[j].milesPerGallon)
  }

  /** The left fold of LessMpg over `data` with no initial value (Array.prototype.reduce). */
  function WorstMpg(data: seq<Record>): (w: Record)
    requires data != []
    ensures w in data
    decreases |data|
  {
    if |data| == 1 then data[0]
    else
      var init := data[..|data| - 1];
      assert data == init + [data[|data| - 1]];
      LessMpg(WorstMpg(init), data[|data| - 1])
  }

  /** The record reduce returns sits at the last position of least miles per gallon. */
  lemma {:induction false} WorstMpgAt(data: seq<Record>) returns (k: int)
    requires data != []
    ensures IsLastMinimum(data, k) && data[k] == WorstMpg(data)
    decreases |data|
  {
    var n := |data|;
    if n == 1 {
      k := 0;
    } else {
      var init := data[..n - 1];
      var k0 := WorstMpgAt(init);
      assert forall j :: 0 <= j < n - 1 ==> init[j] == data[j];
      if init[k0].milesPerGallon < data[n - 1].milesPerGallon {
        k := k0;
      } else {
        k := n - 1;
      }
    }
  }

  /** The worst-MPG record is a drawn record whose MPG is at most every record's. */
  lemma WorstMpgIsMinimum(data: seq<Record>)
    requires data != []
    ensures WorstMpg(data) in data
    ensures forall i :: 0 <= i < |data| ==> WorstMpg(data).milesPerGallon <= data[i].milesPerGallon
  {
    var k := WorstMpgAt(data);
  }

  /** On ties the last record in order wins: any last minimum is the one reduce returns. */
  lemma WorstMpgIsLastOfTies(data: seq<Record>, k: int)
    requires IsLastMinimum(data, k)
    ensures WorstMpg(data) == data[k]
  {
    var k' := WorstMpgAt(data);
  }

  /** The scene-3 label names the car: the name reads back after the fixed prefix. */
  function WorstLabel(name: string): (caption: string)
    ensures |caption| == |WorstPrefix| + |name|
    ensures caption[..|WorstPrefix|] == WorstPrefix
    ensures caption[|WorstPrefix|..] == name
  {
    WorstPrefix + name
  }

  /** The annotation step of renderScene, over the records it drew. */
  function Annotate(scene: int, data: seq<Record>): (a: Result<Option<Annotation>, RenderError>)
    ensures a.Err? <==> scene == 3 && data == []
    ensures a.Ok? ==> (a.value.Some? <==> scene in {1, 2, 3})
    ensures scene == 3 && a.Ok? ==>
      exists i :: 0 <= i < |data| && a.value.value.x == data[i].horsepower && a.value.value.y == data[i].milesPerGallon
  {
    if scene == 1 then Ok(Some(Annotation(Scene1Caption, 150.0, 15.0)))
    else if scene == 2 then Ok(Some(Annotation(Scene2Caption, 90.0, 30.0)))
    else if scene == 3 then
      if data == [] then Err(ReduceOfEmptyArray)
      else
        var w := WorstMpg(data);
        Ok(Some(Annotation(WorstLabel(w.name), w.horsepower, w.milesPerGallon)))
    else Ok(None)
  }

  /** Everything one renderScene(scene, region) draws over the loaded `data`. */
  function Render(data: seq<Record>, scene: int, region: string): (f: Frame)
    ensures forall i :: 0 <= i < |f.drawn| ==> f.drawn[i] in data
    ensures f.annotation.Err? <==> scene == 3 && f.drawn == []
  {
    var drawn := Drawn(data, scene, region);
    Frame(drawn, Annotate(scene, drawn))
  }

  /** Outside the scene-4-with-a-region case the full data set is drawn, unchanged. */
  lemma RenderDrawsAll(data: seq<Record>, scene: int, region: string)
    requires scene != 4 || region == AllRegions
    ensures Render(data, scene, region).drawn == data
  {
  }

  /**
   * In scene 4 with a region other than "All", exactly the records of that origin are
   * drawn, each as often as it occurs in the data, in the data's order.
   */
  lemma RenderDrawsRegion(data: seq<Record>, region: string)
    requires region != AllRegions
    ensures var drawn := Render(data, 4, region).drawn;
      && (forall d :: d in drawn <==> d in data && d.origin == region)
      && (forall d :: multiset(drawn)[d] == if d.origin == region then multiset(data)[d] else 0)
      && IsSubsequence(drawn, data)
  {
    var drawn := Render(data, 4, region).drawn;
    forall d: Record ensures multiset(drawn)[d] == if d.origin == region then multiset(data)[d] else 0 {
      FilterCount(data, OriginIs(region), d);
    }
    FilterIsSubsequence(data, OriginIs(region));
  }

  /** The region argument has no effect outside scene 4. */
  lemma RegionIgnoredOutsideScene4(data: seq<Record>, scene: int, region: string)
    requires scene != 4
    ensures Render(data, scene, region) == Render(data, scene, AllRegions)
  {
  }

  /** Every drawn record lies within the domains computed from the whole data set at load. */
  lemma DrawnWithinDomains(data: seq<Record>, scene: int, region: string)
    requires data != []
    ensures var drawn := Render(data, scene, region).drawn;
      forall i :: 0 <= i < |drawn| ==>
        && Extent(data, Horsepower).value.lo <= drawn[i].horsepower <= Extent(data, Horsepower).value.hi
        && Extent(data, MilesPerGallon).value.lo <= drawn[i].milesPerGallon <= Extent(data, MilesPerGallon).value.hi
  {
  }

  /**
   * Scenes 1 and 2 carry one fixed callout at a fixed data point, scene 3 one callout
   * (or the reduce error on empty data), and scene 4 none.
   */
  lemma AnnotationPerScene(data: seq<Record>, scene: int, region: string)
    ensures var a := Render(data, scene, region).annotation;
      && (scene == 1 ==> a == Ok(Some(Annotation(Scene1Caption, 150.0, 15.0))))
      && (scene == 2 ==> a == Ok(Some(Annotation(Scene2Caption, 90.0, 30.0))))
      && (scene == 3 ==> (a.Err? <==> data == []))
      && (scene == 3 && data != [] ==> a.Ok? && a.value.Some?)
      && (scene == 4 ==> a == Ok(None))
  {
  }

  /**
   * Scene 3, whatever the region, annotates the worst-MPG record of the whole data set
   * at its own coordinates, with its name after the fixed prefix.
   */
  lemma Scene3AnnotatesWorst(data: seq<Record>, region: string)
    requires data != []
    ensures var a := Render(data, 3, region).annotation;
      && a.Ok? && a.value.Some?
      && exists k :: IsLastMinimum(data, k)
           && a.value.value == Annotation(WorstPrefix + data[k].name, data[k].horsepower, data[k].milesPerGallon)
  {
    var k := WorstMpgAt(data);
  }

  /** The hover tooltip: whether it is shown and the text it holds. */
  datatype Tooltip = Tooltip(visible: bool, text: string)

  /** The tooltip as the page creates it: hidden, empty. */
  const HiddenTooltip: Tooltip := Tooltip(false, "")

  /**
   * The tooltip text for a car; `show` is the number-to-text conversion of the
   * template literal.
   */
  function TooltipText(d: Record, show: real -> string): (t: string)
    ensures |t| == |d.name| + |d.origin| + |show(d.milesPerGallon)| + 10
    ensures t[..|d.name|] == d.name && t[|t| - 4..] == " MPG"
  {
    d.name + " (" + d.origin + ") - " + show(d.milesPerGallon) + " MPG"
  }

  /** The tooltip text reads back as the car's name, its origin and its MPG text. */
  lemma TooltipTextParts(d: Record, show: real -> string)
    ensures var t := TooltipText(d, show);
      var n, o, m := |d.name|, |d.origin|, |show(d.milesPerGallon)|;
      && |t| == n + o + m + 10
      && t[..n] == d.name
      && t[n..n + 2] == " ("
      && t[n + 2..n + 2 + o] == d.origin
      && t[n + 2 + o..n + o + 6] == ") - "
      && t[n + o + 6..n + o + 6 + m] == show(d.milesPerGallon)
      && t[n + o + 6 + m..] == " MPG"
  {
  }

  /** Mouseover on a marker drawn in `scene`: shows the car's text only in scene 4. */
  function MouseOver(t: Tooltip, scene: int, d: Record, show: real -> string): (t': Tooltip)
    ensures scene == 4 ==> t'.visible && t'.text == TooltipText(d, show)
    ensures scene != 4 ==> t' == t
  {
    if scene == 4 then Tooltip(true, TooltipText(d, show)) else t
  }

  /** Mouseout always hides the tooltip and leaves its text. */
  function MouseOut(t: Tooltip): (t': Tooltip)
    ensures !t'.visible && t'.text == t.text
  {
    t.(visible := false)
  }

  /** In scenes other than 4 a hidden tooltip stays hidden under any hover. */
  lemma HiddenOutsideScene4(t: Tooltip, scene: int, d: Record, show: real -> string)
    requires scene != 4 && !t.visible
    ensures !MouseOver(t, scene, d, show).visible
    ensures !MouseOut(MouseOver(t, scene, d, show)).visible
  {
  }

  /** The page controls whose handlers the load callback attaches. */
  datatype UiEvent = SceneButton(k: int) | RegionChange(value: string)

  /** The arguments a handler passes to renderScene. */
  datatype RenderCall = RenderCall(scene: int, region: string)

  /** Buttons call renderScene(k) with the default region; the dropdown calls renderScene(4, value). */
  function Route(e: UiEvent): (c: RenderCall)
    ensures e.SceneButton? ==> c.region == AllRegions
    ensures c.scene == 4 <==> e.RegionChange? || e.k == 4
    ensures e.SceneButton? ==> c.scene == e.k
    ensures e.RegionChange? ==> c.region == e.value
  {
    match e
    case SceneButton(k) => RenderCall(k, AllRegions)
    case RegionChange(v) => RenderCall(4, v)
  }

  /** A scene button, scene 4's included, always draws the full data set. */
  lemma ButtonDrawsAll(data: seq<Record>, k: int)
    ensures var c := Route(SceneButton(k));
      Render(data, c.scene, c.region).drawn == data
  {
  }

  /** Choosing a region draws exactly that region's records, or everything for "All". */
  lemma RegionChangeDraws(data: seq<Record>, v: string, d: Record)
    ensures var c := Route(RegionChange(v));
      var drawn := Render(data, c.scene, c.region).drawn;
      && c.scene == 4
      && (v == AllRegions ==> drawn == data)
      && (v != AllRegions ==> (d in drawn <==> d in data && d.origin == v))
  {
  }
}
