# Ad Server — a Dafny model of its core

Ad Server is a WordPress plugin that shows ads. Ads are posts of its own
post type. Each ad carries a country restriction, an optional priority and
a destination URL as post meta, plus a featured image. This project models
the four pieces of the plugin that have logic of their own:

- **The weighted draw** (`AdServerPlugin`, `ad_server.dfy`). The host query
  selects the ad-type posts whose `_ad_server_ad_country` meta is `ALL` or
  the viewer's country. Each ad's id goes into a pool once per element of
  PHP `range(1, $priority)` when the priority meta is truthy, and once
  otherwise. An index drawn by `mt_rand` picks the ad. The result is
  `{url, image_html}`. `get_ad_server_zone` wraps the image in a link when
  both parts are truthy. `GetAdServerZoneData` keeps the source's nested
  loops and is proved equal to the pool function `AdPool`. The lemmas about
  `AdPool` give membership, multiplicity, length and order.
- **The meta save handler** (`MetaBox`, `meta_box.dfy`, over the post-meta
  table of `post_meta.dfy`). It has three early exits: autosave, a missing
  capability, and any invalid nonce. All nonce checks come before any
  write. The form keys are rewritten in place into meta keys. Then each key
  gets one of four decisions: add, update, delete or nothing.
  `SavePost` is proved equal to `SavePostResult`. The lemmas show that only
  the post's two ad keys change, what each key ends up holding, and that
  saving is idempotent.
- **Viewer resolution** (`IpResolver`, `ip_resolver.dfy`). The IP address
  is chosen in this order: the explicit argument, then the CloudFlare
  connecting-IP header, then `REMOTE_ADDR`. The CloudFlare country header
  beats the GeoLite2 lookup. A lookup failure leaves country and continent
  as they were. The resolver's constructor updates only the three viewer
  fields of the `AdServer` object.
- **The browser script** (`AdClient`, `ad_client.dfy`). `adServerFormatAd`
  covers three cases. `adServerPushAJAXAds` is gated on status 200 and
  writes each zone's ad into the element `ad-server-<zone id>`.

`php_values.dfy` gives the PHP semantics the code relies on:

- string truthiness, where `""` and `"0"` are false;
- the integer value of a string, as `range` reads it;
- `range` itself.

`markup.dfy` holds the one link markup that PHP and JavaScript both build.

Inputs the plugin gets from its host are parameters:

- the list of posts the query runs over, in the host's order (the host never repeats an id; `PoolCount` assumes this);
- the post-meta table, as a map from (post id, key) to string;
- the featured-image markup of each post;
- the index `mt_rand` returns;
- the `$_POST` and `$_SERVER` arrays, as maps;
- the autosave flag and the result of the capability check;
- `wp_verify_nonce` and the GeoLite2 reader, as opaque functions.

Some behaviour of the code deserves a note:

- The code ignores the zone. It has no zone-to-ad relation, so every
  eligible ad is a candidate for every zone.
- A negative priority gives `2 - p` copies, not one.
- An empty pool is not guarded. Here it is an error result (`None`).
- The zone record has no tracking URL.

Some PHP details of the code are modelled as written:

- `"00"` is a truthy priority worth two copies (`range(1, 0)` is `[1, 0]`).
- A POST value of `"0"` is neither stored nor treated as a deletion.
- The POST value is read under the meta key (`_ad_server_url`). The nonce
  is read under the form key plus `-nonce`. This matches the field names
  the meta boxes render.
- `add_post_meta(..., true)` refuses a key that is already present, even
  when it holds `""`. So "a truthy new value is stored" holds for every key
  that does not hold an empty string. A save never stores one
  (`SavePostNoEmpty`).

## Model

| member | source | states |
|---|---|---|
| `PhpValues.RangeShape` | ad-server.php:288 | `range(1, p)` has `p` elements counting up for `p >= 1` and `2 - p` counting down otherwise; element `i` is `1 + i` or `1 - i` |
| `PhpValues.IntValueOfIntToString` | ad-server.php:285-288 | a priority stored as the decimal form of an integer reads back as that integer |
| `Markup.Anchor` | ad-server.php:328 | the link markup is `<a href="` + target + `">` + inner HTML + `</a>`: its length is the parts' plus 15, and the target and inner HTML sit at fixed offsets |
| `Markup.AnchorInjective` | ad-server.php:327-329 | when the link targets hold no double quote, equal link markup means equal target and equal inner HTML |
| `AdServerPlugin.EligibleAds` | ad-server.php:265-282 | the query returns only ad-type posts whose country meta is `ALL` or the viewer's country, and every such post |
| `AdServerPlugin.PriorityCopies` | ad-server.php:287-295 | every ad goes into the pool at least once |
| `AdServerPlugin.PriorityCopiesValue` | ad-server.php:287-295 | an empty or `"0"` priority gives one copy, a priority `p >= 1` gives `p` copies, and a lower one gives `2 - p` |
| `AdServerPlugin.StoredPriorityCopies` | ad-server.php:285-295 | a priority saved as integer `n` gives `n` copies for `n >= 1`, one for 0 and `2 - n` below |
| `AdServerPlugin.AdPoolAppend` | ad-server.php:284-296 | the pool keeps candidate order: the pool of `a + b` is the pool of `a` followed by the pool of `b`, so each ad's copies are contiguous |
| `AdServerPlugin.AdPoolMembers` | ad-server.php:284-296 | an id is in the pool exactly when it is a candidate |
| `AdServerPlugin.AdPoolLength` | ad-server.php:284-296 | the pool length is the sum of the copy counts and at least the number of candidates |
| `AdServerPlugin.AdPoolCount` | ad-server.php:284-296 | with distinct ids, each candidate occurs exactly its copy count of times and any other id never |
| `AdServerPlugin.EligibleAdsDistinct` | ad-server.php:269-282 | when the host's posts have distinct ids, the query returns no id twice |
| `AdServerPlugin.PoolCount` | ad-server.php:269-296 | for posts with distinct ids, each ad-type post whose country meta is `ALL` or the viewer's country occurs in the draw pool exactly its copy count of times, and any other id never |
| `AdServerPlugin.AdPoolEmpty` | ad-server.php:284-299 | the pool is empty exactly when no ad is eligible, which is when the draw range `[0, -1]` is empty |
| `AdServerPlugin.DrawnAdEligible` | ad-server.php:269-300 | any index in range picks an ad-type post whose country meta is `ALL` or the viewer's country |
| `AdServerPlugin.ZoneHtml` | ad-server.php:322-331 | the markup is empty unless both the image and the URL are truthy (`"0"` counts as empty); otherwise it is the image linked to the URL |
| `AdServerPlugin.AdServer.GetAdServerZoneData` | ad-server.php:261-312 | the nested loops build exactly `AdPool` of the eligible ads. The result is the URL meta and full-size image of the ad at the drawn index, or `None` for an empty pool. `zone` plays no part |
| `AdServerPlugin.AdServer.GetAdServerZone` | ad-server.php:322-331 | the markup rule applied to the zone data of the same draw, with the empty-pool error passed on |
| `PostMeta.MetaTable.AddUnique` | inc/class-ad-server-meta-box.php:193 | a unique add stores the value only when the key is absent, and reports whether it did |
| `PostMeta.MetaTable.Update` | inc/class-ad-server-meta-box.php:198 | the key holds the new value afterwards; nothing else changes |
| `PostMeta.MetaTable.Delete` | inc/class-ad-server-meta-box.php:203 | the key is removed when it holds the given value; nothing else changes |
| `MetaBox.MetaKey` | inc/class-ad-server-meta-box.php:179-181 | the meta key is `_` followed by the form key with every `-` made `_`, character for character; it contains no `-` |
| `MetaBox.AdMetaKeys` | inc/class-ad-server-meta-box.php:155-181 | the ad form keys become exactly `_ad_server_url` and `_ad_server_ad_country`, the keys the ad query reads |
| `MetaBox.EntryStepOutcome` | inc/class-ad-server-meta-box.php:183-205 | the four-way decision: a truthy value is stored (unless `""` occupies the key), an empty value over a truthy one deletes, an equal value or any other case leaves the entry alone |
| `MetaBox.EntryStepIdempotent` | inc/class-ad-server-meta-box.php:191-204 | deciding a key a second time with the same value changes nothing |
| `MetaBox.ReconcileEntry` | inc/class-ad-server-meta-box.php:183-205 | the loop changes only the listed keys of the post, each by one decision on its original entry; other keys and other posts keep their entries |
| `MetaBox.ReconcileIdempotent` | inc/class-ad-server-meta-box.php:183-205 | running the loop again with the same POST data leaves the same table |
| `MetaBox.ReconcileNoEmpty` | inc/class-ad-server-meta-box.php:191-204 | the loop never stores an empty string |
| `MetaBox.SavePostGuards` | inc/class-ad-server-meta-box.php:140-176 | autosave, a missing capability, a non-ad post type or any missing or invalid nonce leave the table unchanged |
| `MetaBox.SavePostOutcome` | inc/class-ad-server-meta-box.php:183-205 | after a save that passes the guards, each of the post's two ad keys ends as the decision says: a truthy value is stored, except over a stored `""`, which the refused unique add leaves in place; an empty value over a truthy one deletes; any other case keeps the entry. Every other entry is unchanged |
| `MetaBox.SavePostIdempotent` | inc/class-ad-server-meta-box.php:140-206 | saving twice with the same POST data leaves the table that saving once leaves |
| `MetaBox.SavePostNoEmpty` | inc/class-ad-server-meta-box.php:140-206 | a table with no empty-string value keeps none after a save |
| `MetaBox.AdServerMetaBox.SavePost` | inc/class-ad-server-meta-box.php:140-206 | the handler, with its guard exits, nonce loop, in-place key rewrite and reconciliation loop, leaves the table equal to `SavePostResult` |
| `IpResolver.GeoLite2Country` | inc/class-ad-server-ip-resolver.php:64-74 | a found record sets country and continent from the lookup on the current address; AddressNotFound or InvalidDatabase changes nothing |
| `IpResolver.Resolved` | inc/class-ad-server-ip-resolver.php:30-57 | the address precedence is explicit argument, then CloudFlare header, then `REMOTE_ADDR`. The CloudFlare country header wins over the lookup and leaves the continent alone. Otherwise the lookup runs on the chosen address |
| `IpResolver.LookupFailureKeepsLocation` | inc/class-ad-server-ip-resolver.php:64-73 | a failed lookup keeps the previous country and continent |
| `IpResolver.AdServerIpResolver.constructor` | inc/class-ad-server-ip-resolver.php:30-57 | only `ipAddress`, `country` and `continent` of the plugin object change, and they become `Resolved` of their old values |
| `IpResolver.AdServerIpResolver.ParseGeolite2Country` | inc/class-ad-server-ip-resolver.php:64-74 | only country and continent change, as `GeoLite2Country` says |
| `AdClient.FormatAd` | js/ad-server.js:24-38 | without a truthy image the result is undefined. With an image and no tracking URL it is the image unchanged. With both it is the image linked to the tracking URL |
| `AdClient.ZoneDataNeverLinked` | js/ad-server.js:27-35 | the server's zone record, having no `tracking_url`, formats to the bare image, or to undefined when the image is empty; never to a link |
| `AdClient.ElementIdRoundTrip` | js/ad-server.js:15 | the zone id is recovered from its element id `ad-server-<zone>` |
| `AdClient.ZoneOfInverse` | js/ad-server.js:15 | an element id read as a zone id is exactly that zone's element id, so distinct zones write distinct elements |
| `AdClient.PushedElements` | js/ad-server.js:11-16 | each zone's element with a defined ad gets that ad's markup. Elements of no zone keep their HTML. No element is created or removed |
| `AdClient.Page.PushAjaxAds` | js/ad-server.js:4-19 | nothing changes unless the status is 200. Otherwise the elements become `Pushed` of the page data, in whatever order the keys are visited |

## Left out

- The host query's SQL details are not modelled. Post status is ignored.
  Meta values are compared by exact string equality, not by MySQL's
  case-insensitive collation. Each (post, key) holds one value.
  `get_posts` result order is taken as given.
- `IntValue` reads only an optional sign and leading decimal digits.
  PHP's leading whitespace, exponent and float forms of numeric strings are
  not modelled.
- PHP's loose `!=` compares numeric strings by value. The model compares
  strings exactly.
- The randomness and bias of `mt_rand` are not modelled. The drawn index is
  an input.
- An empty pool is reported as `None`. The model does not follow PHP 7's
  warning path or PHP 8's `ValueError` further.
- PriorityCopies: `range` is taken over unbounded integers. PHP limits
  it: a priority beyond the maximum array size makes `range` fail (PHP 7
  returns `false`, so the ad gets no copies; PHP 8 throws), and priorities
  in the millions already exhaust the memory limit. For such a priority,
  `"3000000000"` say, the model gives the ad that many copies where the
  code drops the ad or dies.
- PostMeta.MetaTable.Delete: WordPress's slashing is not modelled. `$_POST`
  arrives slashed and `delete_post_meta` unslashes its value argument. The
  handler passes the value read back from the table, so a stored value
  holding a backslash (`http://x/a\b`) is not deleted by an empty POST
  value in the code, while `Delete` and `MetaBox.EntryStep` delete it.
- The return values of `save_post` are not modelled. The early exits
  return the post id, and the host ignores it.
- `wp_kses_post` is taken as the identity. `wp_verify_nonce` and the
  capability check are opaque inputs.
- The GeoIp2 reader is an opaque function. Its other exceptions are not
  modelled: a malformed address or a missing database file raises an
  exception the resolver does not catch. A record without an ISO code is a
  string here.
- jQuery selector escaping is not modelled, since zone ids are numeric.
  The JSONP request in the document-ready handler is network I/O and is
  left out.
- These parts are host wiring or UI with no logic of their own:
  - the `Ad_Server` constructor, `init`, `wp_loaded`,
    `register_required_plugins` and `maybe_load_admin`;
  - `ad_post_type`, which is `sanitize_key` over a filter;
  - meta-box rendering, `register_meta_boxes` and `add_meta_boxes`;
  - `inc/template-tags.php`, which only delegates. The `get_page_data` it
    calls is not part of this model.
