/**
 * The secret store: items addressed by (bag name, item name), each a map from
 * field name to an opaque string.  It is external to the renderers; a `Vault`
 * records which items were fetched so that callers can state how often and
 * for what they asked.
 */
module ChefVault {

  import opened Wrappers

  type Key = (string, string)
  type Item = map<string, string>
  type Store = map<Key, Item>

  class Vault {
    const items: Store
    var fetches: seq<Key>

    constructor (items: Store)
      ensures this.items == items && fetches == []
    {
      this.items := items;
      fetches := [];
    }

    /** One fetch of the item `(bag, name)`; `None` when the store has no such item. */
    method Fetch(bag: string, name: string) returns (r: Option<Item>)
      modifies this
      ensures fetches == old(fetches) + [(bag, name)]
      ensures r.Some? <==> (bag, name) in items
      ensures r.Some? ==> r.value == items[(bag, name)]
    {
      fetches := fetches + [(bag, name)];
      r := if (bag, name) in items then Some(items[(bag, name)]) else None;
    }
  }
}
