/**
 * The popup lifecycle of the feature-info tool
 * (app/static/script/app/plugins/WMSGetFeatureInfo.js, lines 95-133 and
 * 170-227): the `getfeatureinfo` handler that records the feature and shows
 * the popup, and the `displayPopup`, `expandInfo`, `showStreetView` and
 * `closePopup` methods that update the tool's fields `popup`, `streetview`
 * and `feature` and the popup itself.
 *
 * The mapping toolkit's geometry operations (centroid, reprojection from
 * EPSG:4326 to the map's projection) and the template and string functions
 * are supplied to the tool when it is constructed.
 */
module Popup {
  import opened Wrappers
  import opened Templates
  import opened Formatter
  import Orientation

  /** The default of the `headingAttribute` configuration option. */
  const DEFAULT_HEADING_ATTRIBUTE: string := "ORIENTATION"

  /** A screen position (the event's `xy`), where the popup is anchored. */
  datatype Pixel = Pixel(x: int, y: int)

  /** A street view panel added to a popup: where it looks from and the
      camera heading. */
  datatype StreetViewPanel = StreetViewPanel(location: Point, orientation: real)

  /** What the `getfeatureinfo` handler did with one event. */
  datatype Outcome = NoFeatures | Shown | Failed(error: TemplateError)

  /** A popup window: its toolbar holds "+" (expand) and "X" (close). */
  class PopupWindow {
    const body: string
    const location: Pixel
    var isOpen: bool
    var width: int
    var height: int
    var expandVisible: bool
    var closeVisible: bool
    var items: seq<StreetViewPanel>

    /** A popup as `displayPopup` configures it: 200 by 100, "+" shown,
        "X" hidden. */
    constructor (body: string, location: Pixel)
      ensures this.body == body && this.location == location
      ensures isOpen && width == 200 && height == 100
      ensures expandVisible && !closeVisible && items == []
    {
      this.body := body;
      this.location := location;
      isOpen := true;
      width, height := 200, 100;
      expandVisible, closeVisible := true, false;
      items := [];
    }

    method Close()
      modifies this
      ensures !isOpen
      ensures width == old(width) && height == old(height)
      ensures expandVisible == old(expandVisible) && closeVisible == old(closeVisible)
      ensures items == old(items)
    {
      isOpen := false;
    }

    method SetSize(w: int, h: int)
      modifies this
      ensures width == w && height == h
      ensures isOpen == old(isOpen)
      ensures expandVisible == old(expandVisible) && closeVisible == old(closeVisible)
      ensures items == old(items)
    {
      width, height := w, h;
    }

    /** Shows or hides the toolbar's "+" and "X" items. */
    method SetToolbar(expand: bool, close: bool)
      modifies this
      ensures expandVisible == expand && closeVisible == close
      ensures isOpen == old(isOpen) && width == old(width) && height == old(height)
      ensures items == old(items)
    {
      expandVisible, closeVisible := expand, close;
    }

    method Add(panel: StreetViewPanel)
      modifies this
      ensures items == old(items) + [panel]
      ensures isOpen == old(isOpen) && width == old(width) && height == old(height)
      ensures expandVisible == old(expandVisible) && closeVisible == old(closeVisible)
    {
      items := items + [panel];
    }
  }

  /** The application's map, as far as this tool changes it. */
  class MapView {
    var center: Point

    constructor (center: Point)
      ensures this.center == center
    {
      this.center := center;
    }

    method SetCenter(p: Point)
      modifies this
      ensures center == p
    {
      center := p;
    }
  }

  class FeatureInfoTool {
    const headingAttribute: string
    const render: Renderer
    /** String.prototype.toUpperCase */
    const upper: string -> string
    /** The global Number conversion */
    const toNumber: string -> real
    /** Geometry.getCentroid */
    const centroid: Geometry -> Point
    /** Reprojection from EPSG:4326 to the map's projection */
    const toMapProjection: Point -> Point
    const mapView: MapView

    var popup: PopupWindow?
    var streetview: bool
    var feature: Option<Feature>

    /** Every popup this tool has opened, the current one last. */
    ghost var popups: seq<PopupWindow>
    /** The centres the map was moved to by this tool, in order. */
    ghost var recentres: seq<Point>

    /** The current popup is the last one opened, it exists only once a
        feature has been recorded, and no other popup is still open. */
    ghost predicate Valid()
      reads this, popups
    {
      && (popup == null <==> popups == [])
      && (popup != null ==> popup == popups[|popups| - 1] && feature.Some?)
      && (forall p :: p in popups && p.isOpen ==> p == popup)
    }

    /** The popup `displayPopup` has just opened for `text` at `xy`, with the
        street view flag reset. */
    ghost predicate JustDisplayed(text: string, xy: Pixel)
      reads this, popup
    {
      && popup != null && popup.isOpen
      && popup.body == text && popup.location == xy
      && popup.width == 200 && popup.height == 100
      && popup.expandVisible && !popup.closeVisible
      && popup.items == []
      && !streetview
    }

    /** The configured heading attribute replaces the default when given. */
    constructor (heading: Option<string>, render: Renderer, upper: string -> string,
                 toNumber: string -> real, centroid: Geometry -> Point,
                 toMapProjection: Point -> Point, mapView: MapView)
      ensures Valid()
      ensures headingAttribute == (if heading.Some? then heading.value else DEFAULT_HEADING_ATTRIBUTE)
      ensures this.render == render && this.upper == upper && this.toNumber == toNumber
      ensures this.centroid == centroid && this.toMapProjection == toMapProjection && this.mapView == mapView
      ensures popup == null && !streetview && feature == None
      ensures popups == [] && recentres == []
    {
      headingAttribute := if heading.Some? then heading.value else DEFAULT_HEADING_ATTRIBUTE;
      this.render := render;
      this.upper := upper;
      this.toNumber := toNumber;
      this.centroid := centroid;
      this.toMapProjection := toMapProjection;
      this.mapView := mapView;
      popup := null;
      streetview := false;
      feature := None;
      popups := [];
      recentres := [];
    }

    /** The `getfeatureinfo` handler. An event without features changes
        nothing. Otherwise only the first feature is used: it becomes the
        current feature, its HTML is built and a popup displays it. A feature
        type without a template fails after the feature has been recorded,
        and nothing else changes. */
    method OnFeatureInfo(features: seq<Feature>, xy: Pixel, mode: Mode) returns (outcome: Outcome)
      requires Valid()
      modifies this, popup
      ensures Valid()
      ensures recentres == old(recentres)
      ensures features == [] ==>
                outcome == NoFeatures && unchanged(this) && (popup != null ==> unchanged(popup))
      ensures features != [] ==> feature == Some(features[0])
      ensures features != [] && FeatureInfoHtml(features[0], mode, render).Err? ==>
                && outcome == Failed(FeatureInfoHtml(features[0], mode, render).error)
                && popup == old(popup) && streetview == old(streetview) && popups == old(popups)
                && (popup != null ==> unchanged(popup))
      ensures features != [] && FeatureInfoHtml(features[0], mode, render).Ok? ==>
                && outcome == Shown
                && fresh(popup) && popups == old(popups) + [popup]
                && JustDisplayed(FeatureInfoHtml(features[0], mode, render).value, xy)
                && (old(popup) != null ==> !old(popup).isOpen)
    {
      if |features| == 0 {
        return NoFeatures;
      }
      feature := Some(features[0]);
      var html := FormatFeature(features[0], mode, render);
      if html.Err? {
        return Failed(html.error);
      }
      DisplayPopup(xy, html.value);
      outcome := Shown;
    }

    /** Closes the current popup if there is one, resets the street view
        flag and opens a new popup at 200 by 100 with "+" shown and "X"
        hidden. */
    method DisplayPopup(xy: Pixel, text: string)
      requires Valid() && feature.Some?
      modifies this, popup
      ensures Valid()
      ensures fresh(popup) && popups == old(popups) + [popup]
      ensures JustDisplayed(text, xy)
      ensures old(popup) != null ==> !old(popup).isOpen
      ensures feature == old(feature) && recentres == old(recentres)
    {
      if popup != null {
        popup.Close();
      }
      streetview := false;
      popup := new PopupWindow(text, xy);
      popups := popups + [popup];
    }

    /** `expandInfo`: hides "+", shows "X" and enlarges the popup to 300 by
        200. The tool's own fields are untouched. */
    method ExpandInfo()
      requires Valid() && popup != null
      modifies popup
      ensures Valid()
      ensures !popup.expandVisible && popup.closeVisible
      ensures popup.width == 300 && popup.height == 200
      ensures popup.isOpen == old(popup.isOpen) && popup.items == old(popup.items)
    {
      popup.SetToolbar(false, true);
      popup.SetSize(300, 200);
    }

    /** `showStreetView`: sets the street view flag, adds a street view panel
        at the feature's centroid, oriented by the feature's heading
        attribute, and enlarges the popup to 800 by 300. The current feature
        is untouched. */
    method ShowStreetView()
      requires Valid() && popup != null
      modifies this`streetview, popup
      ensures Valid()
      ensures streetview
      ensures popup.items == old(popup.items) + [StreetViewPanel(
                centroid(feature.value.geometry),
                Orientation.Orientation(feature.value.attributes, headingAttribute, upper, toNumber))]
      ensures popup.width == 800 && popup.height == 300
      ensures popup.isOpen == old(popup.isOpen)
      ensures popup.expandVisible == old(popup.expandVisible) && popup.closeVisible == old(popup.closeVisible)
    {
      streetview := true;
      var geom := centroid(feature.value.geometry);
      var orientation := Orientation.OrientationForFeature(feature.value.attributes, headingAttribute, upper, toNumber);
      popup.Add(StreetViewPanel(geom, orientation));
      popup.SetSize(800, 300);
    }

    /** `closePopup`: closes the popup; only when the street view was shown
        is the map re-centred, once, on the feature's reprojected centroid.
        Neither the street view flag nor the popup reference is reset. */
    method ClosePopup()
      requires Valid() && popup != null
      modifies popup, mapView, this`recentres
      ensures Valid()
      ensures !popup.isOpen
      ensures popup.width == old(popup.width) && popup.height == old(popup.height)
      ensures popup.expandVisible == old(popup.expandVisible) && popup.closeVisible == old(popup.closeVisible)
      ensures popup.items == old(popup.items)
      ensures old(streetview) ==>
                && mapView.center == toMapProjection(centroid(feature.value.geometry))
                && recentres == old(recentres) + [mapView.center]
      ensures !old(streetview) ==> mapView.center == old(mapView.center) && recentres == old(recentres)
    {
      popup.Close();
      if streetview {
        var centre := toMapProjection(centroid(feature.value.geometry));
        mapView.SetCenter(centre);
        recentres := recentres + [centre];
      }
    }
  }

  // ---------------------------------------------------------------------------
  // Sessions: what the lifecycle methods give when a user drives them in turn
  // ---------------------------------------------------------------------------

  /** Two displays in a row leave exactly one popup open, the second,
      collapsed, with the street view flag reset. */
  method DisplayTwice(tool: FeatureInfoTool, xy1: Pixel, text1: string, xy2: Pixel, text2: string)
    requires tool.Valid() && tool.feature.Some?
    modifies tool, tool.popup
    ensures tool.Valid() && tool.JustDisplayed(text2, xy2)
    ensures forall p :: p in tool.popups && p.isOpen ==> p == tool.popup
    ensures |tool.popups| == |old(tool.popups)| + 2
  {
    tool.DisplayPopup(xy1, text1);
    tool.DisplayPopup(xy2, text2);
  }

  /** Display, expand, show the street view, close: the map is re-centred
      exactly once, on the feature's reprojected centroid. */
  method StreetViewSession(tool: FeatureInfoTool, xy: Pixel, text: string)
    requires tool.Valid() && tool.feature.Some?
    modifies tool, tool.popup, tool.mapView
    ensures tool.Valid() && tool.popup != null && !tool.popup.isOpen
    ensures tool.recentres
         == old(tool.recentres) + [tool.toMapProjection(tool.centroid(old(tool.feature).value.geometry))]
    ensures tool.mapView.center == tool.toMapProjection(tool.centroid(old(tool.feature).value.geometry))
  {
    tool.DisplayPopup(xy, text);
    tool.ExpandInfo();
    tool.ShowStreetView();
    tool.ClosePopup();
  }

  /** Display, expand, close without the street view: the map stays where it
      was and nothing is logged. */
  method PlainSession(tool: FeatureInfoTool, xy: Pixel, text: string)
    requires tool.Valid() && tool.feature.Some?
    modifies tool, tool.popup, tool.mapView
    ensures tool.Valid() && tool.popup != null && !tool.popup.isOpen
    ensures tool.recentres == old(tool.recentres)
    ensures tool.mapView.center == old(tool.mapView.center)
  {
    tool.DisplayPopup(xy, text);
    tool.ExpandInfo();
    tool.ClosePopup();
  }

  /** A feature-info event for `a` is shown, expanded and given the street
      view; then an event for `b`, whose feature type has no template, fails.
      The popup still shows `a`'s HTML with the street view flag set, but `b`
      is now the current feature, so closing the popup re-centres the map on
      `b`'s reprojected centroid. */
  method StaleFeatureSession(tool: FeatureInfoTool, a: Feature, b: Feature, xy1: Pixel, xy2: Pixel, mode: Mode)
    requires tool.Valid()
    requires FeatureInfoHtml(a, mode, tool.render).Ok?
    requires FeatureInfoHtml(b, mode, tool.render).Err?
    modifies tool, tool.popup, tool.mapView
    ensures tool.Valid() && tool.feature == Some(b)
    ensures tool.popup != null && !tool.popup.isOpen
    ensures tool.popup.body == FeatureInfoHtml(a, mode, tool.render).value
    ensures tool.mapView.center == tool.toMapProjection(tool.centroid(b.geometry))
    ensures tool.recentres == old(tool.recentres) + [tool.toMapProjection(tool.centroid(b.geometry))]
  {
    var shown := tool.OnFeatureInfo([a], xy1, mode);
    tool.ExpandInfo();
    tool.ShowStreetView();
    var failed := tool.OnFeatureInfo([b], xy2, mode);
    tool.ClosePopup();
  }
}
