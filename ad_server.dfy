/** The plugin's main class: the priority-weighted draw of one ad for a
    zone, and the link markup built from the drawn ad. */
module AdServerPlugin {
  import opened PhpValues
  import opened PostMeta
  import Markup

  const CountryKey: string := "_ad_server_ad_country"
  const PriorityKey: string := "_ad_server_priority"
  const UrlKey: string := "_ad_server_url"
  /** The country meta value that makes an ad eligible everywhere. */
  const AllCountries: string := "ALL"

  /** A post as the host's query sees it. */
  datatype Post = Post(id: int, postType: string)

  /** The two elements the zone query hands back for the drawn ad. */
  datatype ZoneData = ZoneData(url: string, imageHtml: string)

  /** The meta clause of the ad query: the ad has a country meta row whose
      value is "ALL" or the viewer's country. */
  predicate CountryMatches(meta: MetaMap, ad: int, country: string)
  {
    (ad, CountryKey) in meta &&
    (meta[(ad, CountryKey)] == AllCountries || meta[(ad, CountryKey)] == country)
  }

  /** The host query `get_posts`: the ids of the ad-type posts that pass the
      country clause, in the order the host returns the posts. */
  function EligibleAds(posts: seq<Post>, adPostType: string, meta: MetaMap, country: string): (ads: seq<int>)
    ensures |ads| <= |posts|
    ensures forall i :: 0 <= i < |ads| ==>
              CountryMatches(meta, ads[i], country) &&
              exists j :: 0 <= j < |posts| && posts[j].id == ads[i] && posts[j].postType == adPostType
    ensures forall j ::
              (0 <= j < |posts| && posts[j].postType == adPostType && CountryMatches(meta, posts[j].id, country))
              ==> posts[j].id in ads
  {
    if posts == [] then []
    else
      var rest := EligibleAds(posts[1..], adPostType, meta, country);
      assert forall j :: 1 <= j < |posts| ==> posts[j] == posts[1..][j - 1];
      if posts[0].postType == adPostType && CountryMatches(meta, posts[0].id, country)
      then [posts[0].id] + rest
      else rest
  }

  /** How many times an ad with this priority meta goes into the pool: one
      per element of `range(1, $priority)` when the meta is truthy, else one. */
  function PriorityCopies(priority: string): (n: nat)
    ensures n >= 1
  {
    if Truthy(priority) then |Range(1, IntValue(priority))| else 1
  }

  function Copies(meta: MetaMap, ad: int): nat
  {
    PriorityCopies(GetPostMeta(meta, ad, PriorityKey))
  }

  /** The draw pool: each candidate's id repeated `Copies` times, candidates
      in query order. */
  function AdPool(ads: seq<int>, meta: MetaMap): seq<int>
  {
    if ads == [] then [] else seq(Copies(meta, ads[0]), _ => ads[0]) + AdPool(ads[1..], meta)
  }

  /** Sum of the per-ad copy counts. */
  function TotalCopies(ads: seq<int>, meta: MetaMap): nat
  {
    if ads == [] then 0 else Copies(meta, ads[0]) + TotalCopies(ads[1..], meta)
  }

  /** Priority `p >= 1` gives `p` copies, an empty or "0" priority one copy,
      and a negative one `2 - p` copies because `range` then counts down. */
  lemma PriorityCopiesValue(priority: string)
    ensures !Truthy(priority) ==> PriorityCopies(priority) == 1
    ensures Truthy(priority) && IntValue(priority) >= 1 ==> PriorityCopies(priority) == IntValue(priority)
    ensures Truthy(priority) && IntValue(priority) < 1 ==> PriorityCopies(priority) == 2 - IntValue(priority)
  {
    RangeShape(1, IntValue(priority));
  }

  /** A priority saved as the decimal form of `n` yields `n` copies for
      `n >= 1`, one copy for 0 and `2 - n` for negative `n`. */
  lemma StoredPriorityCopies(n: int)
    ensures PriorityCopies(IntToString(n)) == if n >= 1 then n else if n == 0 then 1 else 2 - n
  {
    var s := IntToString(n);
    IntValueOfIntToString(n);
    PriorityCopiesValue(s);
    if n == 0 {
      assert s == "0";
    } else if n < 0 {
      assert s[0] == '-';
    } else if n < 10 {
      assert s == [DigitChar(n)];
    } else {
      assert |s| >= 2;
    }
  }

  lemma {:induction false} AdPoolAppend(a: seq<int>, b: seq<int>, meta: MetaMap)
    ensures AdPool(a + b, meta) == AdPool(a, meta) + AdPool(b, meta)
  {
    if a == [] {
      assert a + b == b;
    } else {
      assert (a + b)[1..] == a[1..] + b;
      AdPoolAppend(a[1..], b, meta);
    }
  }

  /** Extending the candidate prefix by one ad appends that ad's copies. */
  lemma AdPoolExtend(ads: seq<int>, i: int, meta: MetaMap)
    requires 0 <= i < |ads|
    ensures AdPool(ads[..i + 1], meta) == AdPool(ads[..i], meta) + seq(Copies(meta, ads[i]), _ => ads[i])
  {
    var ad := ads[i];
    assert AdPool([ad], meta) == seq(Copies(meta, ad), _ => ad) + AdPool([ad][1..], meta);
    AdPoolAppend(ads[..i], [ad], meta);
    assert ads[..i + 1] == ads[..i] + [ad];
  }

  /** An id is in the pool exactly when it is one of the candidates. */
  lemma {:induction false} AdPoolMembers(ads: seq<int>, meta: MetaMap)
    ensures forall x :: x in AdPool(ads, meta) <==> x in ads
  {
    if ads != [] {
      AdPoolMembers(ads[1..], meta);
      var block := seq(Copies(meta, ads[0]), _ => ads[0]);
      assert block[0] == ads[0];
      assert forall x :: x in block ==> x == ads[0];
      assert forall x :: x in ads <==> x == ads[0] || x in ads[1..];
    }
  }

  /** The pool is as long as the copy counts add up to, and never shorter
      than the candidate list. */
  lemma {:induction false} AdPoolLength(ads: seq<int>, meta: MetaMap)
    ensures |AdPool(ads, meta)| == TotalCopies(ads, meta) >= |ads|
  {
    if ads != [] {
      AdPoolLength(ads[1..], meta);
    }
  }

  lemma {:induction false} RepeatCount(n: nat, a: int, x: int)
    ensures multiset(seq(n, _ => a))[x] == if x == a then n else 0
  {
    if n > 0 {
      RepeatCount(n - 1, a, x);
      assert seq(n, _ => a) == seq(n - 1, _ => a) + [a];
    }
  }

  predicate Distinct(ads: seq<int>)
  {
    forall i, j :: 0 <= i < j < |ads| ==> ads[i] != ads[j]
  }

  /** With distinct candidate ids, each candidate occurs in the pool exactly
      as often as its priority asks, and no other id occurs. */
  lemma {:induction false} AdPoolCount(ads: seq<int>, meta: MetaMap, x: int)
    requires Distinct(ads)
    ensures multiset(AdPool(ads, meta))[x] == if x in ads then Copies(meta, x) else 0
  {
    if ads != [] {
      AdPoolCount(ads[1..], meta, x);
      RepeatCount(Copies(meta, ads[0]), ads[0], x);
      assert x == ads[0] ==> x !in ads[1..];
      assert x in ads <==> x == ads[0] || x in ads[1..];
    }
  }

  /** The host's posts carry distinct ids. */
  predicate DistinctIds(posts: seq<Post>)
  {
    forall i, j :: 0 <= i < j < |posts| ==> posts[i].id != posts[j].id
  }

  /** The query never returns an id twice when the posts have distinct ids. */
  lemma {:induction false} EligibleAdsDistinct(posts: seq<Post>, adPostType: string, meta: MetaMap, country: string)
    requires DistinctIds(posts)
    ensures Distinct(EligibleAds(posts, adPostType, meta, country))
  {
    if posts != [] {
      var rest := EligibleAds(posts[1..], adPostType, meta, country);
      assert DistinctIds(posts[1..]) by {
        forall i, j | 0 <= i < j < |posts[1..]| ensures posts[1..][i].id != posts[1..][j].id {
          assert posts[1..][i] == posts[i + 1] && posts[1..][j] == posts[j + 1];
        }
      }
      EligibleAdsDistinct(posts[1..], adPostType, meta, country);
      forall i | 0 <= i < |rest| ensures rest[i] != posts[0].id {
        var j :| 0 <= j < |posts[1..]| && posts[1..][j].id == rest[i] && posts[1..][j].postType == adPostType;
        assert posts[1..][j] == posts[j + 1];
      }
    }
  }

  /** The draw pool of `AdServer.Pool` for a viewer in `country`: every
      ad-type post whose country meta matches occurs exactly as often as its
      priority asks, and every other id never. */
  lemma PoolCount(posts: seq<Post>, adPostType: string, meta: MetaMap, country: string, x: int)
    requires DistinctIds(posts)
    ensures multiset(AdPool(EligibleAds(posts, adPostType, meta, country), meta))[x] ==
            if CountryMatches(meta, x, country) &&
               exists j :: 0 <= j < |posts| && posts[j].id == x && posts[j].postType == adPostType
            then Copies(meta, x) else 0
  {
    var ads := EligibleAds(posts, adPostType, meta, country);
    EligibleAdsDistinct(posts, adPostType, meta, country);
    AdPoolCount(ads, meta, x);
    if x in ads {
      var i :| 0 <= i < |ads| && ads[i] == x;
    }
  }

  /** Every id the draw can pick is an ad-type post whose country meta is
      "ALL" or the viewer's country. */
  lemma DrawnAdEligible(posts: seq<Post>, adPostType: string, meta: MetaMap, country: string, k: int)
    requires 0 <= k < |AdPool(EligibleAds(posts, adPostType, meta, country), meta)|
    ensures var id := AdPool(EligibleAds(posts, adPostType, meta, country), meta)[k];
            CountryMatches(meta, id, country) &&
            exists j :: 0 <= j < |posts| && posts[j].id == id && posts[j].postType == adPostType
  {
    var ads := EligibleAds(posts, adPostType, meta, country);
    AdPoolMembers(ads, meta);
    var id := AdPool(ads, meta)[k];
    assert id in ads;
    var i :| 0 <= i < |ads| && ads[i] == id;
  }

  /** The pool is empty exactly when no ad is eligible. */
  lemma AdPoolEmpty(ads: seq<int>, meta: MetaMap)
    ensures AdPool(ads, meta) == [] <==> ads == []
  {
  }

  /** `get_the_post_thumbnail($id, 'full')`: the image markup, "" if none. */
  function Thumbnail(thumbnails: map<int, string>, id: int): string
  {
    if id in thumbnails then thumbnails[id] else ""
  }

  /** The record built for the drawn ad. */
  function DrawnData(pool: seq<int>, k: int, meta: MetaMap, thumbnails: map<int, string>): ZoneData
    requires 0 <= k < |pool|
  {
    ZoneData(GetPostMeta(meta, pool[k], UrlKey), Thumbnail(thumbnails, pool[k]))
  }

  /** `get_ad_server_zone`'s markup rule: a link around the image when both
      the image and the URL are truthy, else the empty string. */
  function ZoneHtml(d: ZoneData): (r: string)
    ensures r != "" <==> Truthy(d.imageHtml) && Truthy(d.url)
    ensures r != "" ==> r == Markup.Anchor(d.url, d.imageHtml)
  {
    if Truthy(d.imageHtml) && Truthy(d.url) then Markup.Anchor(d.url, d.imageHtml) else ""
  }

  class AdServer {
    var path: string
    var adPostType: string
    /** Viewer state, set by the IP resolver. */
    var ipAddress: string
    var country: string
    var continent: string

    constructor (path: string, adPostType: string)
      ensures this.path == path && this.adPostType == adPostType
      ensures ipAddress == "" && country == "" && continent == ""
    {
      this.path := path;
      this.adPostType := adPostType;
      ipAddress, country, continent := "", "", "";
    }

    /** The draw pool for the viewer's country. */
    function Pool(posts: seq<Post>, meta: MetaMap): seq<int>
      reads this
    {
      AdPool(EligibleAds(posts, adPostType, meta, country), meta)
    }

    /** `get_ad_server_zone_data`: builds the pool with nested loops and
        reads the URL and image of the ad at the drawn index `k` (the value
        `mt_rand` returns). `zone` is not used. An empty pool has no index
        to draw and gives None. */
    method GetAdServerZoneData(zone: int, posts: seq<Post>, meta: MetaMap, thumbnails: map<int, string>, k: int)
      returns (r: Option<ZoneData>)
      requires Pool(posts, meta) != [] ==> 0 <= k < |Pool(posts, meta)|
      ensures Pool(posts, meta) == [] ==> r == None
      ensures Pool(posts, meta) != [] ==> r == Some(DrawnData(Pool(posts, meta), k, meta, thumbnails))
    {
      var ads := EligibleAds(posts, adPostType, meta, country);
      var keys: seq<int> := [];
      for i := 0 to |ads|
        invariant keys == AdPool(ads[..i], meta)
      {
        var ad := ads[i];
        ghost var before := keys;
        var priority := GetPostMeta(meta, ad, PriorityKey);
        if Truthy(priority) {
          var priorities := Range(1, IntValue(priority));
          for j := 0 to |priorities|
            invariant keys == before + seq(j, _ => ad)
          {
            assert seq(j + 1, _ => ad) == seq(j, _ => ad) + [ad];
            keys := keys + [ad];
          }
        } else {
          assert seq(1, _ => ad) == [ad];
          keys := keys + [ad];
        }
        AdPoolExtend(ads, i, meta);
      }
      assert ads[..|ads|] == ads;
      if keys == [] {
        return None;
      }
      var adId := keys[k];
      var adImage := Thumbnail(thumbnails, adId);
      var adUrl := GetPostMeta(meta, adId, UrlKey);
      r := Some(ZoneData(adUrl, adImage));
    }

    /** `get_ad_server_zone`: the markup of the drawn ad, or None where the
        draw itself fails. */
    method GetAdServerZone(zone: int, posts: seq<Post>, meta: MetaMap, thumbnails: map<int, string>, k: int)
      returns (html: Option<string>)
      requires Pool(posts, meta) != [] ==> 0 <= k < |Pool(posts, meta)|
      ensures Pool(posts, meta) == [] ==> html == None
      ensures Pool(posts, meta) != [] ==> html == Some(ZoneHtml(DrawnData(Pool(posts, meta), k, meta, thumbnails)))
    {
      var data := GetAdServerZoneData(zone, posts, meta, thumbnails, k);
      if data.None? {
        return None;
      }
      html := Some(ZoneHtml(data.value));
    }
  }
}
