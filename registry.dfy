/**
 * Provider selection: the configured provider name is turned into a class
 * name under `::Middleman::ImageUploaderTag`, that class is looked up and a
 * new instance of it is built from the provider configuration.
 * Ruby's constant lookup is modelled as a finite map from class name to the
 * provider's (opaque) link behaviour.
 */
module Registry {
  import opened Wrappers
  import opened Errors
  import opened AsciiCase

  const Namespace: string := "::Middleman::ImageUploaderTag::"
  const Suffix: string := "CDN"

  /** The `provider_config` option, handed to the provider untouched (`nil` by default). */
  type ProviderConfig = Option<map<string, string>>

  /** What a provider class does with a local path: its `get_remote_link`, given the config it was built with. */
  type Backend = (ProviderConfig, string) -> string

  /** The provider classes that exist, by fully qualified name. */
  type Classes = map<string, Backend>

  /** An instance of a provider class. */
  datatype Provider = Provider(className: string, config: ProviderConfig, backend: Backend)

  /** `provider.get_remote_link`, seen as a function from local path to link. */
  function RemoteLinkOf(p: Provider): string -> string
  {
    path => p.backend(p.config, path)
  }

  /** Ruby's `to_s` on the `provider` option: `nil` becomes the empty string. */
  function ToS(name: Option<string>): (s: string)
    ensures name.Some? ==> s == name.value
    ensures name.None? ==> s == ""
  {
    match name
    case Some(n) => n
    case None => ""
  }

  /** The class name `::Middleman::ImageUploaderTag::<Capitalized>CDN`. */
  function ClassName(name: string): (r: string)
    ensures |r| == |Namespace| + |name| + |Suffix|
    ensures r[..|Namespace|] == Namespace
    ensures r[|r| - |Suffix|..] == Suffix
    ensures r[|Namespace|..|r| - |Suffix|] == Capitalize(name)
  {
    Namespace + Capitalize(name) + Suffix
  }

  /** Provider names that agree up to letter case, and only those, name the same class. */
  lemma ClassNameIgnoresCase(a: string, b: string)
    ensures ClassName(a) == ClassName(b) <==> Downcase(a) == Downcase(b)
  {
    CapitalizeIgnoresCase(a, b);
    if ClassName(a) == ClassName(b) {
      var r := ClassName(a);
      assert Capitalize(a) == r[|Namespace|..|r| - |Suffix|] == Capitalize(b);
    }
  }

  /**
   * `self.provider`: look up the class for the configured name and build a
   * new instance from the provider configuration.
   */
  function ProviderFor(name: Option<string>, config: ProviderConfig, classes: Classes): (r: Result<Provider, Error>)
    ensures r.Success? <==> ClassName(ToS(name)) in classes
    ensures r.Failure? ==> r.error == UnknownProvider(ClassName(ToS(name)))
    ensures r.Success? ==>
      && r.value.className == ClassName(ToS(name))
      && r.value.config == config
      && r.value.backend == classes[ClassName(ToS(name))]
  {
    var klass := ClassName(ToS(name));
    if klass in classes then Success(Provider(klass, config, classes[klass]))
    else Failure(UnknownProvider(klass))
  }

  /** Names that differ only in letter case select the same provider, or fail alike. */
  lemma ProviderForIgnoresCase(a: Option<string>, b: Option<string>, config: ProviderConfig, classes: Classes)
    requires Downcase(ToS(a)) == Downcase(ToS(b))
    ensures ProviderFor(a, config, classes) == ProviderFor(b, config, classes)
  {
    ClassNameIgnoresCase(ToS(a), ToS(b));
  }
}
