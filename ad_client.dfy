/** The browser side: the markup of one zone's ad, and the fan-out of the
    page's zone data into the elements `ad-server-<zone id>`. */
module AdClient {
  import opened PhpValues
  import Markup
  import AdServerPlugin

  /** One zone's entry in the page data; a field missing from the JSON
      object is None (`undefined`). */
  datatype AdData = AdData(imageHtml: Option<string>, trackingUrl: Option<string>)

  /** The JSONP payload: a status and the zone id -> zone data object. */
  datatype Response = Response(status: int, pageData: map<string, AdData>)

  /** JavaScript truthiness of an optional string: present and non-empty
      ("0" is truthy here, unlike in PHP). */
  predicate JsTruthy(v: Option<string>)
  {
    v.Some? && v.value != ""
  }

  /** `adServerFormatAd`: undefined without an image, the bare image
      without a tracking URL, the image linked to the tracking URL with both. */
  function FormatAd(d: AdData): (r: Option<string>)
    ensures !JsTruthy(d.imageHtml) ==> r == None
    ensures JsTruthy(d.imageHtml) && !JsTruthy(d.trackingUrl) ==> r == d.imageHtml
    ensures JsTruthy(d.imageHtml) && JsTruthy(d.trackingUrl) ==>
              r == Some(Markup.Anchor(d.trackingUrl.value, d.imageHtml.value))
  {
    var html: Option<string> := if JsTruthy(d.imageHtml) then d.imageHtml else None;
    if JsTruthy(d.trackingUrl) && JsTruthy(d.imageHtml)
    then Some(Markup.Anchor(d.trackingUrl.value, d.imageHtml.value))
    else html
  }

  /** The JSON object of the server's zone record: `url` and `image_html`,
      and no `tracking_url`. */
  function FromZoneData(d: AdServerPlugin.ZoneData): AdData
  {
    AdData(Some(d.imageHtml), None)
  }

  /** The zone record the server builds carries no tracking URL, so the
      browser shows its image unlinked whatever its URL. */
  lemma ZoneDataNeverLinked(d: AdServerPlugin.ZoneData)
    ensures FormatAd(FromZoneData(d)) == if d.imageHtml != "" then Some(d.imageHtml) else None
  {
  }

  const ElementPrefix: string := "ad-server-"

  /** The element a zone's ad goes into. */
  function ElementId(zone: string): string
  {
    ElementPrefix + zone
  }

  /** The zone an element id stands for, if it has the prefix. */
  function ZoneOf(id: string): Option<string>
  {
    if |id| >= |ElementPrefix| && id[..|ElementPrefix|] == ElementPrefix
    then Some(id[|ElementPrefix|..]) else None
  }

  lemma ElementIdRoundTrip(zone: string)
    ensures ZoneOf(ElementId(zone)) == Some(zone)
  {
  }

  lemma ZoneOfInverse(id: string)
    requires ZoneOf(id).Some?
    ensures ElementId(ZoneOf(id).value) == id
  {
  }

  /** An element's HTML once the zones in `zones` have been pushed: the
      formatted ad of its zone, or what it held when its zone is not among
      them or formats to `undefined` (`.html(undefined)` writes nothing). */
  function PushedHtml(current: string, id: string, pageData: map<string, AdData>, zones: set<string>): string
  {
    match ZoneOf(id)
    case Some(z) =>
      if z in zones && z in pageData && FormatAd(pageData[z]).Some? then FormatAd(pageData[z]).value
      else current
    case None => current
  }

  function Pushed(elements: map<string, string>, pageData: map<string, AdData>, zones: set<string>): map<string, string>
  {
    map id | id in elements :: PushedHtml(elements[id], id, pageData, zones)
  }

  /** After a push of every zone: the element of each zone with a defined
      ad holds that ad's markup, every element that is no zone's keeps its
      HTML, and no element is created or removed. */
  lemma PushedElements(elements: map<string, string>, pageData: map<string, AdData>)
    ensures Pushed(elements, pageData, pageData.Keys).Keys == elements.Keys
    ensures forall z :: z in pageData && ElementId(z) in elements && FormatAd(pageData[z]).Some? ==>
              Pushed(elements, pageData, pageData.Keys)[ElementId(z)] == FormatAd(pageData[z]).value
    ensures forall id :: id in elements && (forall z :: z in pageData ==> id != ElementId(z)) ==>
              Pushed(elements, pageData, pageData.Keys)[id] == elements[id]
  {
  }

  /** The page's elements, by id. */
  class Page {
    var elements: map<string, string>

    constructor (elements: map<string, string>)
      ensures this.elements == elements
    {
      this.elements := elements;
    }

    /** `adServerPushAJAXAds`: nothing unless the status is 200; otherwise
        each own key of the page data, in any order, writes its formatted
        ad into its element. */
    method PushAjaxAds(data: Response)
      modifies this
      ensures data.status != 200 ==> elements == old(elements)
      ensures data.status == 200 ==> elements == Pushed(old(elements), data.pageData, data.pageData.Keys)
    {
      if data.status != 200 {
        return;
      }
      var zones := data.pageData;
      var todo := zones.Keys;
      ghost var done: set<string> := {};
      assert elements == Pushed(old(elements), zones, done);
      while todo != {}
        invariant todo + done == zones.Keys && todo !! done
        invariant elements == Pushed(old(elements), zones, done)
        decreases todo
      {
        var zoneId :| zoneId in todo;
        var html := FormatAd(zones[zoneId]);
        var id := ElementPrefix + zoneId;
        ElementIdRoundTrip(zoneId);
        forall e | e in elements && ZoneOf(e) == Some(zoneId) ensures e == id {
          ZoneOfInverse(e);
        }
        if id in elements && html.Some? {
          elements := elements[id := html.value];
        }
        todo := todo - {zoneId};
        done := done + {zoneId};
      }
    }
  }
}
