/** AssetDescriptorsCache: the descriptors of every asset by key, loaded once by Init.
  * Loading reads descriptor files from disk; here the loaded map is Init's argument. */
module AssetDescriptors {
  import opened Wrappers
  import opened Models
  import opened Errors

  /** `descriptors.TryGetValue(key, ...)` with the throw after it: before Init the
    * dictionary is null, and a missing key is AssetDescriptorNotFound. */
  function LookupDescriptor(descriptors: Option<map<string, AssetDescriptor>>, key: string)
    : (r: Result<AssetDescriptor, Error>)
    ensures descriptors.None? ==> r == Failure(NullReference)
    ensures descriptors.Some? ==> (r.Success? <==> key in descriptors.value)
    ensures descriptors.Some? && key in descriptors.value ==> r == Success(descriptors.value[key])
    ensures descriptors.Some? && key !in descriptors.value ==> r == Failure(AssetDescriptorNotFound(key))
  {
    match descriptors
    case None => Failure(NullReference)
    case Some(m) => if key in m then Success(m[key]) else Failure(AssetDescriptorNotFound(key))
  }

  class AssetDescriptorsCache {
    var descriptors: Option<map<string, AssetDescriptor>>

    constructor()
      ensures descriptors.None?
    {
      descriptors := None;
    }

    /** Init: the loaded descriptors replace whatever was there. */
    method Init(loaded: map<string, AssetDescriptor>)
      modifies this
      ensures descriptors == Some(loaded)
    {
      descriptors := Some(loaded);
    }

    /** GetAssetDescriptor: the stored descriptor; the map is not changed. */
    method GetAssetDescriptor(key: string) returns (r: Result<AssetDescriptor, Error>)
      ensures r == LookupDescriptor(descriptors, key)
    {
      if descriptors.None? {
        return Failure(NullReference);
      }
      if key !in descriptors.value {
        return Failure(AssetDescriptorNotFound(key));
      }
      return Success(descriptors.value[key]);
    }
  }
}
