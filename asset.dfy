/** Asset: a loaded asset, i.e. its descriptor, the locale it was loaded for, and its
  * data with the encoding the data is in. */
module Assets {
  import opened Wrappers
  import opened Models

  /** The locale an asset records: a null or empty locale means the default one. */
  function AssetLocale(locale: NullableString): (r: string)
    ensures r != ""
    ensures IsNullOrEmpty(locale) ==> r == DefaultLocale
    ensures !IsNullOrEmpty(locale) ==> r == locale.value
  {
    if !IsNullOrEmpty(locale) then locale.value else DefaultLocale
  }

  /** Normalising a locale twice is normalising it once, and a normalised locale is the
    * default one exactly when the given one was null, empty or "default". */
  lemma AssetLocaleIdempotent(locale: NullableString)
    ensures AssetLocale(Some(AssetLocale(locale))) == AssetLocale(locale)
    ensures AssetLocale(locale) == DefaultLocale <==> IsNullOrEmpty(locale) || locale.value == DefaultLocale
  {
  }

  /** An asset built for a locale is in the default locale exactly when that locale was
    * null, empty or "default". */
  lemma DefaultLocaleOfBuiltAsset(asset: Asset, given: NullableString)
    requires asset.locale == AssetLocale(given)
    ensures asset.IsDefaultLocale() <==> IsNullOrEmpty(given) || given.value == DefaultLocale
  {
  }

  class Asset {
    const descriptor: AssetDescriptor
    const locale: string
    /** DataEncoding and Data: unset (None) until SetData. */
    var dataEncoding: Option<AssetDataEncoding>
    var data: NullableString

    constructor(descriptor: AssetDescriptor, locale: NullableString)
      ensures this.descriptor == descriptor && this.locale == AssetLocale(locale)
      ensures dataEncoding.None? && data.None?
    {
      this.descriptor := descriptor;
      this.locale := AssetLocale(locale);
      dataEncoding := None;
      data := None;
    }

    /** IsDefaultLocale: the asset was loaded for the default locale. */
    predicate IsDefaultLocale()
      ensures IsDefaultLocale() ==> AssetLocale(Some(locale)) == DefaultLocale
    {
      locale == DefaultLocale
    }

    method SetData(dataEncoding: AssetDataEncoding, data: NullableString)
      modifies this
      ensures this.dataEncoding == Some(dataEncoding) && this.data == data
    {
      this.dataEncoding := Some(dataEncoding);
      this.data := data;
    }
  }
}
