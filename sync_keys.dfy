/**
  The style the owning text passes on to every effect instance: its
  serialised properties minus a fixed deny-list of identity, geometry,
  editing and effect keys.
 */
module SyncKeys {

  /** Keys never copied from the owning text onto its effect instances. */
  const IGNORE_SYNC_KEYS: seq<string> := [
    "tag", "textEffects", "fill", "stroke",
    "x", "y", "skew", "scale", "scaleX", "scaleY", "rotation",
    "textEditing", "editable", "id", "states", "data",
    "shadow", "innerShadow"
  ]

  /** A copy of `obj` holding exactly its keys outside `keys`, each with its value. */
  method OmitKeys<V>(obj: map<string, V>, keys: seq<string>) returns (r: map<string, V>)
    ensures forall key :: key in r <==> key in obj && key !in keys
    ensures forall key :: key in r ==> r[key] == obj[key]
  {
    r := map[];
    var pending := obj.Keys;
    while pending != {}
      invariant pending <= obj.Keys
      invariant forall key :: key in r <==> key in obj && key !in pending && key !in keys
      invariant forall key :: key in r ==> r[key] == obj[key]
      decreases pending
    {
      var key :| key in pending;
      if key !in keys {
        r := r[key := obj[key]];
      }
      pending := pending - {key};
    }
  }
}
