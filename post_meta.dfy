/** The host's post-meta table: one string per (post id, meta key). A key
    that is not in the table reads as "", as `get_post_meta(.., true)` does. */
module PostMeta {
  import opened PhpValues

  type MetaMap = map<(int, string), string>

  /** `get_post_meta($post, $key, true)`: the stored value, or "". */
  function GetPostMeta(m: MetaMap, post: int, key: string): string
  {
    if (post, key) in m then m[(post, key)] else ""
  }

  /** The table, updated in place by the save handler. */
  class MetaTable {
    var entries: MetaMap

    constructor (initial: MetaMap)
      ensures entries == initial
    {
      entries := initial;
    }

    /** `get_post_meta($post, $key, true)` on the current table. */
    function Get(post: int, key: string): string
      reads this
    {
      GetPostMeta(entries, post, key)
    }

    /** `add_post_meta($post, $key, $value, true)`: a unique add, refused
        when the key is already present (whatever its value). */
    method AddUnique(post: int, key: string, value: string) returns (added: bool)
      modifies this
      ensures added <==> (post, key) !in old(entries)
      ensures entries == if added then old(entries)[(post, key) := value] else old(entries)
    {
      added := (post, key) !in entries;
      if added {
        entries := entries[(post, key) := value];
      }
    }

    /** `update_post_meta($post, $key, $value)`: sets the value, adding the
        key when it is absent. */
    method Update(post: int, key: string, value: string)
      modifies this
      ensures entries == old(entries)[(post, key) := value]
    {
      entries := entries[(post, key) := value];
    }

    /** `delete_post_meta($post, $key, $value)`: removes the key when its
        stored value is `value`. */
    method Delete(post: int, key: string, value: string)
      modifies this
      ensures entries == if (post, key) in old(entries) && old(entries)[(post, key)] == value
                         then old(entries) - {(post, key)} else old(entries)
    {
      if (post, key) in entries && entries[(post, key)] == value {
        entries := entries - {(post, key)};
      }
    }
  }
}
