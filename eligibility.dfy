/**
 Whether a persistent volume is to be migrated: its volume handle must be
 the id of an entry of the source datastore's CNS catalog, and the in-use
 store must report the handle as not in use.
 */
module Eligibility {
  import opened CnsTypes

  /** Some catalog entry has exactly this volume id. */
  predicate InCatalog(catalog: seq<CnsVolume>, handle: string) {
    exists i | 0 <= i < |catalog| :: catalog[i].volumeId.id == handle
  }

  /** `checkForDatastore`: scan the catalog for the first entry whose id is
      `handle`; on that entry decide by the in-use lookup, and when no entry
      matches answer false. */
  function CheckForDatastore(catalog: seq<CnsVolume>, handle: string, inUse: string -> bool): (eligible: bool)
    ensures eligible <==> InCatalog(catalog, handle) && !inUse(handle)
  {
    if catalog == [] then false
    else if catalog[0].volumeId.id == handle then !inUse(handle)
    else
      var eligible := CheckForDatastore(catalog[1..], handle, inUse);
      assert InCatalog(catalog[1..], handle) ==> InCatalog(catalog, handle) by {
        if i :| 0 <= i < |catalog[1..]| && catalog[1..][i].volumeId.id == handle {
          assert catalog[i + 1].volumeId.id == handle;
        }
      }
      eligible
  }
}
