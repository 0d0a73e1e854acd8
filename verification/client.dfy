/** The client object: its settings with their defaults, the error
    record builder and URL composition (lib/imp.js, lines 5-42). */
module Client {
  import opened Values

  const DefaultApiBase: string := "build.electricimp.com"
  const DefaultApiVersion: string := "/v4"

  /** The argument given to the constructor: anything that is not an object
      (a string, a number, null, nothing at all) is ignored; an object is
      read for the keys "apiKey", "apiBase" and "apiVersion". */
  datatype Settings = NotATable | Table(fields: map<string, string>)

  datatype Imp = Imp(apiKey: Option<string>, apiBase: string, apiVersion: string)

  /** The value a settings object gives `key`, if any. */
  function Setting(settings: Settings, key: string): Option<string>
  {
    if settings.Table? && key in settings.fields then Some(settings.fields[key]) else None
  }

  /** The constructor: each of the three settings keeps its default unless
      the settings object names it, in which case the named value is used. */
  function NewImp(settings: Settings): (imp: Imp)
    ensures imp.apiKey.Some? <==> settings.Table? && "apiKey" in settings.fields
    ensures settings.Table? && "apiKey" in settings.fields ==> imp.apiKey.value == settings.fields["apiKey"]
    ensures settings.Table? && "apiBase" in settings.fields ==> imp.apiBase == settings.fields["apiBase"]
    ensures settings.Table? && "apiVersion" in settings.fields ==> imp.apiVersion == settings.fields["apiVersion"]
    ensures !(settings.Table? && "apiBase" in settings.fields) ==> imp.apiBase == "build.electricimp.com"
    ensures !(settings.Table? && "apiVersion" in settings.fields) ==> imp.apiVersion == "/v4"
  {
    Imp(Setting(settings, "apiKey"),
        OrElse(Setting(settings, "apiBase"), DefaultApiBase),
        OrElse(Setting(settings, "apiVersion"), DefaultApiVersion))
  }

  /** A settings argument that is not an object configures exactly what an
      empty settings object does. */
  lemma GarbageSettingsAreDefaults()
    ensures NewImp(NotATable) == NewImp(Table(map[]))
    ensures NewImp(NotATable) == Imp(None, "build.electricimp.com", "/v4")
  {
  }

  /** Only the three named keys matter: two settings objects that agree on
      them configure the same client, whatever else they hold. */
  lemma OnlyNamedSettingsMatter(a: map<string, string>, b: map<string, string>)
    requires forall k :: k in {"apiKey", "apiBase", "apiVersion"} ==> (k in a <==> k in b)
    requires forall k :: k in {"apiKey", "apiBase", "apiVersion"} && k in a ==> a[k] == b[k]
    ensures NewImp(Table(a)) == NewImp(Table(b))
  {
  }

  /** `_buildError`: the full message defaults to the short one. */
  function BuildError(code: Code, shortMessage: string, fullMessage: Option<string>): (e: ApiError)
    ensures e.code == code && e.messageShort == shortMessage
    ensures fullMessage.Some? ==> e.messageFull == fullMessage.value
    ensures fullMessage.None? ==> e.messageFull == shortMessage
  {
    ApiError(code, shortMessage, OrElse(fullMessage, shortMessage))
  }

  /** Omitting the full message is the same as repeating the short one. */
  lemma OmittedFullMessageIsShort(code: Code, shortMessage: string)
    ensures BuildError(code, shortMessage, None) == BuildError(code, shortMessage, Some(shortMessage))
  {
  }

  /** `includeVersion` is true unless the caller says otherwise. */
  function IncludesVersion(includeVersion: Option<bool>): bool
  {
    OrElse(includeVersion, true)
  }

  /** `_buildUrl`: the scheme, the API host, the version prefix when it is
      included, then the path. The result splits back into exactly these
      pieces. */
  function BuildUrl(imp: Imp, path: string, includeVersion: Option<bool>): (url: string)
    ensures var v := if IncludesVersion(includeVersion) then imp.apiVersion else "";
            && |url| == |"https://"| + |imp.apiBase| + |v| + |path|
            && url[..8] == "https://"
            && url[8..8 + |imp.apiBase|] == imp.apiBase
            && url[8 + |imp.apiBase|..|url| - |path|] == v
            && url[|url| - |path|..] == path
  {
    "https://" + imp.apiBase + (if IncludesVersion(includeVersion) then imp.apiVersion else "") + path
  }

  /** The version is included by default. */
  lemma BuildUrlIncludesVersionByDefault(imp: Imp, path: string)
    ensures BuildUrl(imp, path, None) == BuildUrl(imp, path, Some(true))
    ensures BuildUrl(imp, path, None) == "https://" + imp.apiBase + imp.apiVersion + path
  {
  }

  /** A versioned URL for a path is the unversioned URL for the version
      prefix followed by the path: a path that already starts with the
      version prefix is composed without it. */
  lemma VersionedUrlIsUnversionedPrefixedPath(imp: Imp, path: string)
    ensures BuildUrl(imp, path, Some(true)) == BuildUrl(imp, imp.apiVersion + path, Some(false))
  {
  }
}
