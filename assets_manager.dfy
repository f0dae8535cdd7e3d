/** AssetsManager: finds asset descriptors by key, checks an asset's type, and loads its
  * data from the localized file (falling back to the default locale), as text or as
  * base64 depending on the encoding. The file system is a value: which paths exist and
  * what bytes each holds. */
module AssetsManagement {
  import opened Wrappers
  import opened Models
  import opened Errors
  import opened StringExtensions
  import opened Assets
  import opened AssetDescriptors
  import Base64 = Base64Encoder

  /** File.Exists and File.ReadAllBytesAsync. */
  datatype FileSystem = FileSystem(fileExists: string -> bool, readAllBytes: string -> seq<byte>)

  datatype AssetsManagerOptions = AssetsManagerOptions(
    assetsDir: string := DefaultAssetsDir,
    startingLocale: string := DefaultLocale)

  /** An asset's data together with the encoding it is in. */
  datatype LoadedData = LoadedData(encoding: AssetDataEncoding, data: string)

  /** GetDefaultAssetDataEncoding: text and image data as base64, state and script data
    * as text; any other asset type is not supported. */
  function DefaultAssetDataEncoding(assetType: AssetType): (r: Result<AssetDataEncoding, Error>)
    ensures r.Success? <==> !assetType.UndefinedAssetType?
    ensures assetType == TextAsset || assetType == ImageAsset ==> r == Success(Base64Encoding)
    ensures assetType == StateAsset || assetType == ScriptAsset ==> r == Success(StringEncoding)
    ensures assetType.UndefinedAssetType? ==> r == Failure(NotSupported)
  {
    match assetType
    case TextAsset => Success(Base64Encoding)
    case ImageAsset => Success(Base64Encoding)
    case StateAsset => Success(StringEncoding)
    case ScriptAsset => Success(StringEncoding)
    case UndefinedAssetType(_) => Failure(NotSupported)
  }

  /** ValidateAssetType */
  function ValidateAssetType(descriptor: AssetDescriptor, expected: AssetType): (r: Outcome<Error>)
    ensures r.Pass? <==> descriptor.assetType == expected
    ensures r.Fail? ==> r.error == InvalidAssetType(descriptor.key, expected, descriptor.assetType)
  {
    if descriptor.assetType != expected then Fail(InvalidAssetType(descriptor.key, expected, descriptor.assetType))
    else Pass
  }

  /** `rootPath.AddPath("data").AddPath(locale).AddPath(assetPath).NormalizeDirectorySeparators()` */
  function DataPath(native: char, rootPath: string, locale: string, assetPath: NullableString): string
  {
    NormalizeDirectorySeparators(AddPath(Some(AddPath(Some(AddPath(Some(rootPath), Some(AssetsDataDir))), Some(locale))), assetPath), native)
  }

  /** Under a non-empty root, the data path is root/data/locale/assetPath, normalised. */
  lemma DataPathShape(native: char, rootPath: string, locale: string, assetPath: NullableString)
    requires rootPath != ""
    ensures DataPath(native, rootPath, locale, assetPath)
         == NormalizeDirectorySeparators(rootPath + "/" + AssetsDataDir + "/" + locale + "/" + OrEmpty(assetPath), native)
  {
    var p1 := AddPath(Some(rootPath), Some(AssetsDataDir));
    assert p1 == rootPath + "/" + AssetsDataDir;
    var p2 := AddPath(Some(p1), Some(locale));
    assert p2 == p1 + "/" + locale;
    assert AddPath(Some(p2), assetPath) == p2 + "/" + OrEmpty(assetPath);
  }

  /** GetAssetLocalizedPath: the file under the asset's locale if it exists, otherwise
    * the file under the default locale if that exists, otherwise AssetNotFound with the
    * asset's key, path and locale. */
  function GetAssetLocalizedPath(fs: FileSystem, native: char, rootPath: string,
                                 descriptor: AssetDescriptor, locale: string): (r: Result<string, Error>)
    ensures r.Success? ==> fs.fileExists(r.value)
    ensures r.Failure? ==> r.error == AssetNotFound(descriptor.key, descriptor.assetPath, locale)
  {
    var localizedPath := DataPath(native, rootPath, locale, descriptor.assetPath);
    if fs.fileExists(localizedPath) then Success(localizedPath)
    else
      var defaultPath := DataPath(native, rootPath, DefaultLocale, descriptor.assetPath);
      if !fs.fileExists(defaultPath) then Failure(AssetNotFound(descriptor.key, descriptor.assetPath, locale))
      else Success(defaultPath)
  }

  /** The path chosen always exists; the localized file wins; the default-locale file is
    * the only fallback; with neither, the asset is not found. */
  lemma LocalizedPathChoice(fs: FileSystem, native: char, rootPath: string, descriptor: AssetDescriptor, locale: string)
    ensures var r := GetAssetLocalizedPath(fs, native, rootPath, descriptor, locale);
      var localizedPath := DataPath(native, rootPath, locale, descriptor.assetPath);
      var defaultPath := DataPath(native, rootPath, DefaultLocale, descriptor.assetPath);
      && (r.Success? ==> fs.fileExists(r.value) && (r.value == localizedPath || r.value == defaultPath))
      && (fs.fileExists(localizedPath) ==> r == Success(localizedPath))
      && (!fs.fileExists(localizedPath) && fs.fileExists(defaultPath) ==> r == Success(defaultPath))
      && (r.Failure? <==> !fs.fileExists(localizedPath) && !fs.fileExists(defaultPath))
      && (r.Failure? ==> r.error == AssetNotFound(descriptor.key, descriptor.assetPath, locale))
  {
  }

  /** LoadAssetData: the encoding (the forced one, else the type's default), then the
    * bytes of the chosen file, then the data in that encoding. */
  function LoadAssetData(fs: FileSystem, codec: StringCodec, native: char, rootPath: string,
                         descriptor: AssetDescriptor, locale: string, force: Option<AssetDataEncoding>)
    : (r: Result<LoadedData, Error>)
    ensures r.Success? && force.Some? ==> r.value.encoding == force.value
    ensures r.Success? && force.None? ==> DefaultAssetDataEncoding(descriptor.assetType) == Success(r.value.encoding)
    ensures r.Success? ==> GetAssetLocalizedPath(fs, native, rootPath, descriptor, locale).Success?
  {
    var encoding :- if force.Some? then Success(force.value) else DefaultAssetDataEncoding(descriptor.assetType);
    var path :- GetAssetLocalizedPath(fs, native, rootPath, descriptor, locale);
    var bytes := fs.readAllBytes(path);
    match encoding
    case StringEncoding => Success(LoadedData(encoding, codec.toText(bytes)))
    case Base64Encoding => Success(LoadedData(encoding, Base64.Encode(bytes)))
    case UndefinedEncoding(_) => Failure(NotSupported)
  }

  /** GetAsset of a descriptor: the type check, then the data. */
  function AssetOutcome(fs: FileSystem, codec: StringCodec, native: char, rootPath: string,
                        descriptor: AssetDescriptor, expected: AssetType, locale: string,
                        force: Option<AssetDataEncoding>): Result<LoadedData, Error>
  {
    match ValidateAssetType(descriptor, expected)
    case Fail(e) => Failure(e)
    case Pass => LoadAssetData(fs, codec, native, rootPath, descriptor, locale, force)
  }

  /** An asset of the wrong type is refused with InvalidAssetType before any file is
    * looked at: the file system makes no difference. */
  lemma WrongTypeReadsNoFile(fs: FileSystem, other: FileSystem, codec: StringCodec, native: char, rootPath: string,
                             descriptor: AssetDescriptor, expected: AssetType, locale: string,
                             force: Option<AssetDataEncoding>)
    requires descriptor.assetType != expected
    ensures AssetOutcome(fs, codec, native, rootPath, descriptor, expected, locale, force)
         == AssetOutcome(other, codec, native, rootPath, descriptor, expected, locale, force)
         == Failure(InvalidAssetType(descriptor.key, expected, descriptor.assetType))
  {
  }

  /** Loaded data is in the encoding asked for (the forced one, else the type's
    * default): text data is the file's bytes as text, and base64 data decodes back to
    * exactly the file's bytes. */
  lemma {:induction false} LoadedDataMeaning(fs: FileSystem, codec: StringCodec, native: char, rootPath: string,
                                             descriptor: AssetDescriptor, locale: string, force: Option<AssetDataEncoding>)
    requires LoadAssetData(fs, codec, native, rootPath, descriptor, locale, force).Success?
    ensures var d := LoadAssetData(fs, codec, native, rootPath, descriptor, locale, force).value;
      var bytes := fs.readAllBytes(GetAssetLocalizedPath(fs, native, rootPath, descriptor, locale).value);
      && GetAssetLocalizedPath(fs, native, rootPath, descriptor, locale).Success?
      && (force.Some? ==> d.encoding == force.value)
      && (force.None? ==> Success(d.encoding) == DefaultAssetDataEncoding(descriptor.assetType))
      && (d.encoding == StringEncoding ==> d.data == codec.toText(bytes))
      && (d.encoding == Base64Encoding ==> Base64.Decode(d.data) == Success(bytes))
      && !d.encoding.UndefinedEncoding?
  {
    var path := GetAssetLocalizedPath(fs, native, rootPath, descriptor, locale);
    assert path.Success?;
    Base64.RoundTrip(fs.readAllBytes(path.value));
  }

  class AssetsManager {
    const options: AssetsManagerOptions
    const codec: StringCodec
    const files: FileSystem
    /** Path.DirectorySeparatorChar */
    const native: char
    var descriptors: Option<map<string, AssetDescriptor>>
    var locale: NullableString

    constructor(options: Option<AssetsManagerOptions>, codec: StringCodec, files: FileSystem, native: char)
      ensures this.options == options.UnwrapOr(AssetsManagerOptions())
      ensures this.codec == codec && this.files == files && this.native == native
      ensures descriptors.None? && locale == Some(this.options.startingLocale)
    {
      this.options := options.UnwrapOr(AssetsManagerOptions());
      this.codec := codec;
      this.files := files;
      this.native := native;
      descriptors := None;
      locale := Some(options.UnwrapOr(AssetsManagerOptions()).startingLocale);
    }

    /** Init: the descriptors loaded from the assets directory replace the map. */
    method Init(loaded: map<string, AssetDescriptor>)
      modifies this
      ensures descriptors == Some(loaded) && locale == old(locale)
    {
      descriptors := Some(loaded);
    }

    method GetLocale() returns (r: NullableString)
      ensures r == locale
    {
      return locale;
    }

    method SetLocale(locale: NullableString)
      modifies this
      ensures this.locale == locale && descriptors == old(descriptors)
    {
      this.locale := locale;
    }

    method GetAssetDescriptor(key: string) returns (r: Result<AssetDescriptor, Error>)
      ensures r == LookupDescriptor(descriptors, key)
    {
      if descriptors.None? {
        return Failure(NullReference);
      }
      if key !in descriptors.value {
        return Failure(AssetDescriptorNotFound(key));
      }
      return Success(descriptors.value[key]);
    }

    /** GetAsset of a descriptor, behind GetTextAsset, GetImageAsset, GetStateAsset and
      * GetScriptAsset (`expected` is the type each of them asks for): a fresh asset in
      * the current locale, holding the loaded data and its encoding. */
    method GetAssetOf(descriptor: AssetDescriptor, expected: AssetType, force: Option<AssetDataEncoding>)
      returns (r: Result<Asset, Error>)
      ensures var outcome := AssetOutcome(files, codec, native, options.assetsDir, descriptor, expected, AssetLocale(locale), force);
        && (outcome.Failure? ==> r == Failure(outcome.error))
        && (outcome.Success? ==>
              && r.Success? && fresh(r.value)
              && r.value.descriptor == descriptor && r.value.locale == AssetLocale(locale)
              && r.value.dataEncoding == Some(outcome.value.encoding) && r.value.data == Some(outcome.value.data))
    {
      var valid := ValidateAssetType(descriptor, expected);
      if valid.Fail? {
        return Failure(valid.error);
      }
      var asset := new Asset(descriptor, locale);
      var loaded := LoadAssetData(files, codec, native, options.assetsDir, descriptor, asset.locale, force);
      if loaded.Failure? {
        return Failure(loaded.error);
      }
      asset.SetData(loaded.value.encoding, Some(loaded.value.data));
      return Success(asset);
    }

    /** GetAsset of a key: the descriptor, then GetAssetOf. */
    method GetAsset(key: string, expected: AssetType, force: Option<AssetDataEncoding>)
      returns (r: Result<Asset, Error>)
      ensures LookupDescriptor(descriptors, key).Failure? ==> r == Failure(LookupDescriptor(descriptors, key).error)
      ensures LookupDescriptor(descriptors, key).Success? ==>
        var descriptor := LookupDescriptor(descriptors, key).value;
        var outcome := AssetOutcome(files, codec, native, options.assetsDir, descriptor, expected, AssetLocale(locale), force);
        && (outcome.Failure? ==> r == Failure(outcome.error))
        && (outcome.Success? ==>
              && r.Success? && fresh(r.value)
              && r.value.descriptor == descriptor && r.value.locale == AssetLocale(locale)
              && r.value.dataEncoding == Some(outcome.value.encoding) && r.value.data == Some(outcome.value.data))
    {
      var descriptor := GetAssetDescriptor(key);
      if descriptor.Failure? {
        return Failure(descriptor.error);
      }
      r := GetAssetOf(descriptor.value, expected, force);
    }
  }
}
