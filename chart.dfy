/**
 * The page's mutable state — the loaded data, the current scene, the two scale
 * domains, the region-filter wrapper's display and the tooltip — and the
 * callbacks that change it.
 */
module Chart {
  import opened Wrappers
  import opened Cars
  import opened Scene

  /** The forEach loop of the load callback: coerce both numeric fields of each kept record. */
  method CoerceEach(kept: seq<RawRecord>) returns (data: seq<Record>)
    requires forall i :: 0 <= i < |kept| ==> Usable(kept[i])
    ensures data == CoerceAll(kept)
    ensures AllNonzero(data)
  {
    data := [];
    for i := 0 to |kept|
      invariant |data| == i
      invariant forall j :: 0 <= j < i ==> data[j] == Coerce(kept[j])
    {
      data := data + [Coerce(kept[i])];
    }
  }

  class AppState {
    var currentData: seq<Record>
    var currentScene: int
    /** The domains of the horsepower (x) and miles-per-gallon (y) scales; None until data is loaded. */
    var xDomain: Option<Domain>
    var yDomain: Option<Domain>
    /** Whether the region-filter wrapper is displayed. */
    var regionFilterShown: bool
    var tooltip: Tooltip
    /** Whether the scene buttons and the region dropdown have their handlers yet. */
    var handlersAttached: bool

    /** The domains are the extents of the retained data, every one of whose records has both fields non-zero. */
    ghost predicate Valid()
      reads this
    {
      && AllNonzero(currentData)
      && xDomain == Extent(currentData, Horsepower)
      && yDomain == Extent(currentData, MilesPerGallon)
    }

    /** The page before its data arrives; the wrapper's first display comes from the page markup. */
    constructor (markupShowsRegionFilter: bool)
      ensures Valid()
      ensures currentData == [] && currentScene == 1
      ensures regionFilterShown == markupShowsRegionFilter
      ensures tooltip == HiddenTooltip && !handlersAttached
    {
      currentData := [];
      currentScene := 1;
      xDomain := None;
      yDomain := None;
      regionFilterShown := markupShowsRegionFilter;
      tooltip := HiddenTooltip;
      handlersAttached := false;
    }

    /**
     * renderScene(scene, region): records the scene, shows the region filter only in
     * scene 4, and draws the selected records with the scene's annotation.
     */
    method RenderScene(scene: int, region: string) returns (frame: Frame)
      requires Valid()
      modifies this`currentScene, this`regionFilterShown
      ensures Valid()
      ensures currentScene == scene
      ensures regionFilterShown <==> scene == 4
      ensures frame == Render(currentData, scene, region)
    {
      currentScene := scene;
      regionFilterShown := scene == 4;
      var data := currentData;
      if scene == 4 && region != AllRegions {
        data := FilterRegion(data, region);
      }
      frame := Frame(data, Annotate(scene, data));
    }

    /**
     * The load callback over the already-parsed array: drop the records without both
     * numeric fields, coerce the rest, fix the scale domains, draw scene 1 and attach
     * the control handlers.
     */
    method Load(raw: seq<RawRecord>) returns (frame: Frame)
      modifies this
      ensures Valid()
      ensures currentData == Loaded(raw)
      ensures xDomain == Extent(Loaded(raw), Horsepower)
      ensures yDomain == Extent(Loaded(raw), MilesPerGallon)
      ensures currentScene == 1 && !regionFilterShown && handlersAttached
      ensures frame == Render(Loaded(raw), 1, AllRegions)
      ensures tooltip == old(tooltip)
    {
      var data := CoerceEach(KeepValid(raw));
      assert data == Loaded(raw);
      currentData := data;
      xDomain := Extent(data, Horsepower);
      yDomain := Extent(data, MilesPerGallon);
      frame := RenderScene(1, AllRegions);
      assert currentData == data;
      handlersAttached := true;
    }

    /** A click on a scene button or a change of the region dropdown; nothing before load. */
    method Handle(e: UiEvent) returns (frame: Option<Frame>)
      requires Valid()
      modifies this`currentScene, this`regionFilterShown
      ensures Valid()
      ensures !handlersAttached ==> frame == None && unchanged(this)
      ensures handlersAttached ==>
        && currentScene == Route(e).scene
        && (regionFilterShown <==> Route(e).scene == 4)
        && frame == Some(Render(currentData, Route(e).scene, Route(e).region))
    {
      if handlersAttached {
        var c := Route(e);
        var f := RenderScene(c.scene, c.region);
        frame := Some(f);
      } else {
        frame := None;
      }
    }

    /** The pointer enters a marker drawn for `d`; the marker belongs to the current scene's render. */
    method Hover(d: Record, show: real -> string)
      modifies this`tooltip
      ensures tooltip == MouseOver(old(tooltip), currentScene, d, show)
    {
      tooltip := MouseOver(tooltip, currentScene, d, show);
    }

    /** The pointer leaves a marker. */
    method Leave()
      modifies this`tooltip
      ensures tooltip == MouseOut(old(tooltip))
    {
      tooltip := MouseOut(tooltip);
    }
  }

  /** The two-car sample: domains [100, 200] and [15, 40], scene 3 names car B. */
  lemma SampleDomainsAndWorst()
    ensures var raw := [RawRecord("A", "Japan", Number(100.0), Number(40.0)),
                        RawRecord("B", "USA", Number(200.0), Number(15.0))];
      && Loaded(raw) == [Record("A", "Japan", 100.0, 40.0), Record("B", "USA", 200.0, 15.0)]
      && Extent(Loaded(raw), Horsepower) == Some(Domain(100.0, 200.0))
      && Extent(Loaded(raw), MilesPerGallon) == Some(Domain(15.0, 40.0))
      && Render(Loaded(raw), 3, AllRegions).annotation == Ok(Some(Annotation("Worst MPG: B", 200.0, 15.0)))
  {
    var raw := [RawRecord("A", "Japan", Number(100.0), Number(40.0)),
                RawRecord("B", "USA", Number(200.0), Number(15.0))];
    var a, b := Record("A", "Japan", 100.0, 40.0), Record("B", "USA", 200.0, 15.0);
    LoadedAppend([raw[0]], [raw[1]]);
    assert raw == [raw[0]] + [raw[1]];
    LoadedSingle(raw[0]);
    LoadedSingle(raw[1]);
    assert Loaded(raw) == [a, b];
    assert [a, b][1..] == [b];
    assert [a, b][..1] == [a];
    assert WorstLabel("B") == "Worst MPG: B";
  }

  /** Two cars with the same MPG: the later one is annotated. */
  lemma TieGoesToLater(a: Record, b: Record)
    requires a.milesPerGallon == b.milesPerGallon
    ensures WorstMpg([a, b]) == b
  {
  }

  /** The sample's car B hovered in scene 4 reads "B (USA) - 15 MPG". */
  lemma SampleTooltip(show: real -> string)
    requires show(15.0) == "15"
    ensures MouseOver(HiddenTooltip, 4, Record("B", "USA", 200.0, 15.0), show) == Tooltip(true, "B (USA) - 15 MPG")
  {
  }

  /**
   * A session after load: hovering a car in scene 1 shows nothing; the scene-4 button
   * draws every loaded car, and the same hover then shows the car's text.
   */
  method HoverSession(raw: seq<RawRecord>, d: Record, show: real -> string)
  {
    var app := new AppState(false);
    var frame := app.Load(raw);
    app.Hover(d, show);
    assert !app.tooltip.visible;
    app.Leave();
    var f4 := app.Handle(SceneButton(4));
    RenderDrawsAll(app.currentData, 4, AllRegions);
    assert f4.value.drawn == Loaded(raw);
    app.Hover(d, show);
    assert app.tooltip == Tooltip(true, TooltipText(d, show));
  }
}
