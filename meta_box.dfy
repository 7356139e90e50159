/** The save handler of the ad meta boxes: guards, form-key to meta-key
    conversion, and the add / update / delete decision for each key. */
module MetaBox {
  import opened PhpValues
  import opened PostMeta
  import AdServerPlugin

  /** Form keys of the two meta boxes shown on the ad post type. */
  const AdKeys: seq<string> := ["ad-server-url", "ad-server-ad-country"]

  /** The keys handled for a post: the ad keys for the ad post type, none
      for any other type. */
  function KeysFor(postType: string, adPostType: string): seq<string>
  {
    if postType == adPostType then AdKeys else []
  }

  /** Name of the POST field, and nonce action, that guards a form key. */
  function NonceName(key: string): string
  {
    key + "-nonce"
  }

  /** `isset($_POST[$nonce]) && wp_verify_nonce($_POST[$nonce], $nonce)`;
      the nonce check itself is the opaque `verify`. */
  predicate NonceValid(post: map<string, string>, key: string, verify: (string, string) -> bool)
  {
    NonceName(key) in post && verify(post[NonceName(key)], NonceName(key))
  }

  predicate AllNoncesValid(post: map<string, string>, keys: seq<string>, verify: (string, string) -> bool)
  {
    forall i :: 0 <= i < |keys| ==> NonceValid(post, keys[i], verify)
  }

  /** `str_replace('-', '_', $s)` */
  function ReplaceDashes(s: string): string
  {
    seq(|s|, i requires 0 <= i < |s| => if s[i] == '-' then '_' else s[i])
  }

  /** The meta key of a form key: an underscore, then the form key with
      every dash turned into an underscore. */
  function MetaKey(key: string): (r: string)
    ensures |r| == |key| + 1 && r[0] == '_'
    ensures forall i :: 0 <= i < |key| ==> r[i + 1] == if key[i] == '-' then '_' else key[i]
    ensures '-' !in r
  {
    "_" + ReplaceDashes(key)
  }

  /** The meta keys of a list of form keys, in order. */
  function MetaKeys(keys: seq<string>): seq<string>
  {
    seq(|keys|, i requires 0 <= i < |keys| => MetaKey(keys[i]))
  }

  /** The form keys turn into exactly the meta keys the ad query reads. */
  lemma AdMetaKeys()
    ensures MetaKeys(AdKeys) == [AdServerPlugin.UrlKey, AdServerPlugin.CountryKey]
  {
    assert MetaKey(AdKeys[0]) == AdServerPlugin.UrlKey;
    assert MetaKey(AdKeys[1]) == AdServerPlugin.CountryKey;
  }

  /** `wp_kses_post($_POST[$meta_key])`, the sanitiser taken as the
      identity; an unset field reads as "". */
  function PostValue(post: map<string, string>, metaKey: string): string
  {
    if metaKey in post then post[metaKey] else ""
  }

  /** The stored entry of a key: None when the key is absent. */
  function Entry(m: MetaMap, q: (int, string)): Option<string>
  {
    if q in m then Some(m[q]) else None
  }

  function Put(m: MetaMap, q: (int, string), e: Option<string>): MetaMap
  {
    match e
    case None => m - {q}
    case Some(v) => m[q := v]
  }

  /** The decision for one key, given its stored entry and the new value:
      add (refused when the key is present, even holding ""), update,
      delete, or leave alone. */
  function EntryStep(stored: Option<string>, incoming: string): Option<string>
  {
    var current := if stored.Some? then stored.value else "";
    if Truthy(incoming) && current == "" then (if stored.Some? then stored else Some(incoming))
    else if Truthy(incoming) && incoming != current then Some(incoming)
    else if incoming == "" && Truthy(current) then None
    else stored
  }

  /** One pass of the reconciliation loop, on key `metaKey` of `postId`. */
  function MetaStep(m: MetaMap, postId: int, metaKey: string, incoming: string): MetaMap
  {
    Put(m, (postId, metaKey), EntryStep(Entry(m, (postId, metaKey)), incoming))
  }

  /** The reconciliation loop over `metaKeys`, in order. */
  function Reconcile(m: MetaMap, postId: int, metaKeys: seq<string>, post: map<string, string>): MetaMap
    decreases |metaKeys|
  {
    if metaKeys == [] then m
    else
      var last := metaKeys[|metaKeys| - 1];
      MetaStep(Reconcile(m, postId, metaKeys[..|metaKeys| - 1], post), postId, last, PostValue(post, last))
  }

  /** The store after `save_post`: unchanged on autosave, without the edit
      capability or with any nonce invalid; reconciled otherwise. */
  function SavePostResult(m: MetaMap, postId: int, postType: string, adPostType: string,
                          doingAutosave: bool, canEdit: bool,
                          post: map<string, string>, verify: (string, string) -> bool): MetaMap
  {
    var keys := KeysFor(postType, adPostType);
    if doingAutosave || !canEdit || !AllNoncesValid(post, keys, verify) then m
    else Reconcile(m, postId, MetaKeys(keys), post)
  }

  /** No stored value is the empty string. */
  predicate NoEmptyValues(m: MetaMap)
  {
    forall q :: q in m ==> m[q] != ""
  }

  // ---------------------------------------------------------------------
  // The decision for one key

  /** What one key ends up holding: a truthy new value is stored (unless an
      empty string already occupies the key), an empty new value over a
      truthy old value removes the key, and every other case, including a
      new value equal to the old one, leaves the entry as it was. */
  lemma EntryStepOutcome(stored: Option<string>, incoming: string)
    ensures Truthy(incoming) && stored != Some("") ==> EntryStep(stored, incoming) == Some(incoming)
    ensures incoming == "" && stored.Some? && Truthy(stored.value) ==> EntryStep(stored, incoming) == None
    ensures !Truthy(incoming) && !(incoming == "" && stored.Some? && Truthy(stored.value)) ==> EntryStep(stored, incoming) == stored
    ensures (if stored.Some? then stored.value else "") == incoming ==> EntryStep(stored, incoming) == stored
    ensures stored == Some("") ==> EntryStep(stored, incoming) == stored
  {
  }

  lemma EntryStepIdempotent(stored: Option<string>, incoming: string)
    ensures EntryStep(EntryStep(stored, incoming), incoming) == EntryStep(stored, incoming)
  {
  }

  lemma PutEntry(m: MetaMap, q: (int, string), e: Option<string>, q': (int, string))
    ensures Entry(Put(m, q, e), q') == if q' == q then e else Entry(m, q')
  {
  }

  lemma PutUnchanged(m: MetaMap, q: (int, string))
    ensures Put(m, q, Entry(m, q)) == m
  {
    if q in m {
      assert m[q := m[q]] == m;
    }
  }

  /** Two stores with the same entry for every key are the same store. */
  lemma SameEntries(a: MetaMap, b: MetaMap)
    requires forall q :: Entry(a, q) == Entry(b, q)
    ensures a == b
  {
    assert forall q :: q in a <==> Entry(a, q).Some?;
    assert a.Keys == b.Keys;
    forall q | q in a ensures a[q] == b[q] {
      assert Entry(a, q) == Entry(b, q);
    }
  }

  // ---------------------------------------------------------------------
  // The reconciliation loop

  /** Reconciliation touches only the listed keys of `postId`, and each of
      those ends as one decision on its original entry (a key listed twice
      is decided again, with the same outcome). */
  lemma {:induction false} ReconcileEntry(m: MetaMap, postId: int, metaKeys: seq<string>,
                                          post: map<string, string>, q: (int, string))
    ensures Entry(Reconcile(m, postId, metaKeys, post), q) ==
            if q.0 == postId && q.1 in metaKeys then EntryStep(Entry(m, q), PostValue(post, q.1))
            else Entry(m, q)
    decreases |metaKeys|
  {
    if metaKeys != [] {
      var init := metaKeys[..|metaKeys| - 1];
      var last := metaKeys[|metaKeys| - 1];
      var before := Reconcile(m, postId, init, post);
      ReconcileEntry(m, postId, init, post, q);
      PutEntry(before, (postId, last), EntryStep(Entry(before, (postId, last)), PostValue(post, last)), q);
      assert q.1 in metaKeys <==> q.1 in init || q.1 == last;
      if q == (postId, last) && q.1 in init {
        EntryStepIdempotent(Entry(m, q), PostValue(post, last));
      }
    }
  }

  /** Running the reconciliation a second time with the same POST data
      changes nothing. */
  lemma ReconcileIdempotent(m: MetaMap, postId: int, metaKeys: seq<string>, post: map<string, string>)
    ensures Reconcile(Reconcile(m, postId, metaKeys, post), postId, metaKeys, post) ==
            Reconcile(m, postId, metaKeys, post)
  {
    var once := Reconcile(m, postId, metaKeys, post);
    var twice := Reconcile(once, postId, metaKeys, post);
    forall q ensures Entry(twice, q) == Entry(once, q) {
      ReconcileEntry(m, postId, metaKeys, post, q);
      ReconcileEntry(once, postId, metaKeys, post, q);
      EntryStepIdempotent(Entry(m, q), PostValue(post, q.1));
    }
    SameEntries(twice, once);
  }

  /** A store holding no empty string keeps holding none. */
  lemma ReconcileNoEmpty(m: MetaMap, postId: int, metaKeys: seq<string>, post: map<string, string>)
    requires NoEmptyValues(m)
    ensures NoEmptyValues(Reconcile(m, postId, metaKeys, post))
  {
  }

  // ---------------------------------------------------------------------
  // save_post

  /** Autosave, a missing capability, a post of another type or any
      invalid nonce leave the store exactly as it was. */
  lemma SavePostGuards(m: MetaMap, postId: int, postType: string, adPostType: string,
                       doingAutosave: bool, canEdit: bool,
                       post: map<string, string>, verify: (string, string) -> bool)
    requires doingAutosave || !canEdit || postType != adPostType || !AllNoncesValid(post, AdKeys, verify)
    ensures SavePostResult(m, postId, postType, adPostType, doingAutosave, canEdit, post, verify) == m
  {
  }

  /** After a save that passes the guards, on each ad meta key of the post:
      a truthy POST value is the stored value (when no empty string
      occupied the key), an empty POST value over a truthy stored value
      removes the key, a truthy POST value over a stored empty string is
      refused by the unique add and leaves "", and in every other case the
      entry is as before.
      Keys of other posts and other keys of this post are untouched. */
  lemma SavePostOutcome(m: MetaMap, postId: int, adPostType: string,
                        post: map<string, string>, verify: (string, string) -> bool, q: (int, string))
    requires AllNoncesValid(post, AdKeys, verify)
    ensures var r := SavePostResult(m, postId, adPostType, adPostType, false, true, post, verify);
            var incoming := PostValue(post, q.1);
            if q.0 == postId && (q.1 == AdServerPlugin.UrlKey || q.1 == AdServerPlugin.CountryKey) then
              (Truthy(incoming) && Entry(m, q) != Some("") ==> q in r && r[q] == incoming) &&
              (incoming == "" && Truthy(GetPostMeta(m, q.0, q.1)) ==> q !in r) &&
              (Truthy(incoming) && Entry(m, q) == Some("") ==> Entry(r, q) == Some("")) &&
              (!Truthy(incoming) && !(incoming == "" && Truthy(GetPostMeta(m, q.0, q.1))) ==> Entry(r, q) == Entry(m, q))
            else Entry(r, q) == Entry(m, q)
  {
    AdMetaKeys();
    var keys := MetaKeys(AdKeys);
    ReconcileEntry(m, postId, keys, post, q);
    EntryStepOutcome(Entry(m, q), PostValue(post, q.1));
  }

  /** Saving twice with the same POST data leaves the store saving once
      leaves. */
  lemma SavePostIdempotent(m: MetaMap, postId: int, postType: string, adPostType: string,
                           doingAutosave: bool, canEdit: bool,
                           post: map<string, string>, verify: (string, string) -> bool)
    ensures var once := SavePostResult(m, postId, postType, adPostType, doingAutosave, canEdit, post, verify);
            SavePostResult(once, postId, postType, adPostType, doingAutosave, canEdit, post, verify) == once
  {
    ReconcileIdempotent(m, postId, MetaKeys(KeysFor(postType, adPostType)), post);
  }

  /** A save never stores the empty string. */
  lemma SavePostNoEmpty(m: MetaMap, postId: int, postType: string, adPostType: string,
                        doingAutosave: bool, canEdit: bool,
                        post: map<string, string>, verify: (string, string) -> bool)
    requires NoEmptyValues(m)
    ensures NoEmptyValues(SavePostResult(m, postId, postType, adPostType, doingAutosave, canEdit, post, verify))
  {
    ReconcileNoEmpty(m, postId, MetaKeys(KeysFor(postType, adPostType)), post);
  }

  class AdServerMetaBox {
    var adServer: AdServerPlugin.AdServer

    constructor (adServer: AdServerPlugin.AdServer)
      ensures this.adServer == adServer
    {
      this.adServer := adServer;
    }

    /** `save_post`: the capability check is `canEdit`, the autosave flag
        `doingAutosave`, the submitted form `post`. */
    method SavePost(store: MetaTable, postId: int, postType: string, doingAutosave: bool, canEdit: bool,
                    post: map<string, string>, verify: (string, string) -> bool)
      modifies store
      ensures store.entries == SavePostResult(old(store.entries), postId, postType, adServer.adPostType,
                                              doingAutosave, canEdit, post, verify)
    {
      if doingAutosave {
        return;
      }
      if !canEdit {
        return;
      }
      var keys := KeysFor(postType, adServer.adPostType);
      var defaultKeys: seq<string> := [];
      keys := keys + defaultKeys;
      assert keys == KeysFor(postType, adServer.adPostType);

      // Every nonce is checked before anything is written.
      var i := 0;
      while i < |keys|
        invariant 0 <= i <= |keys|
        invariant forall j :: 0 <= j < i ==> NonceValid(post, keys[j], verify)
      {
        var nonce := keys[i] + "-nonce";
        if nonce !in post || !verify(post[nonce], nonce) {
          return;
        }
        i := i + 1;
      }

      // Form keys become meta keys, in place.
      ghost var formKeys := keys;
      i := 0;
      while i < |keys|
        invariant 0 <= i <= |keys| == |formKeys|
        invariant forall j :: 0 <= j < i ==> keys[j] == MetaKey(formKeys[j])
        invariant forall j :: i <= j < |keys| ==> keys[j] == formKeys[j]
      {
        keys := keys[i := "_" + ReplaceDashes(keys[i])];
        i := i + 1;
      }
      assert keys == MetaKeys(formKeys);

      ghost var start := store.entries;
      i := 0;
      while i < |keys|
        invariant 0 <= i <= |keys|
        invariant store.entries == Reconcile(start, postId, keys[..i], post)
      {
        var metaKey := keys[i];
        var newMetaValue := PostValue(post, metaKey);
        var metaValue := store.Get(postId, metaKey);
        ghost var before := store.entries;
        PutUnchanged(before, (postId, metaKey));
        if Truthy(newMetaValue) && metaValue == "" {
          var added := store.AddUnique(postId, metaKey, newMetaValue);
        } else if Truthy(newMetaValue) && newMetaValue != metaValue {
          store.Update(postId, metaKey, newMetaValue);
        } else if newMetaValue == "" && Truthy(metaValue) {
          store.Delete(postId, metaKey, metaValue);
        }
        assert store.entries == MetaStep(before, postId, metaKey, newMetaValue);
        assert keys[..i + 1][..i] == keys[..i];
        i := i + 1;
      }
      assert keys[..|keys|] == keys;
    }
  }
}
