/**
 * Link resolution as a pure function of the environment, the application
 * root, the staging directory name, the image name, the file system's
 * answer to "does this file exist?" and the provider's link function.
 */
module Resolution {
  import opened Wrappers
  import opened Errors
  import opened AsciiCase
  import opened Registry

  /** `app.config.environment`: `:build`, or any other environment symbol. */
  datatype Environment = Build | Other(name: string)

  /** The parts of the Middleman application the extension reads. */
  datatype App = App(rootPath: string, environment: Environment)

  /** The extension's three options, each `nil` unless configured. */
  datatype Options = Options(provider: Option<string>, providerConfig: ProviderConfig, remoteImagesDir: Option<string>)

  const DefaultImagesDir: string := "remote_images"

  /** `provider_options.remote_images_dir || 'remote_images'`: only `nil` falls back; an empty name is kept. */
  function DirChoice(configured: Option<string>): (d: string)
    ensures configured.Some? ==> d == configured.value
    ensures configured.None? ==> d == DefaultImagesDir
  {
    match configured
    case Some(dir) => dir
    case None => DefaultImagesDir
  }

  /** `image_location`: `<root>/source/<dir>/<name>`, read back part by part. */
  function ImageLocation(root: string, dir: string, name: string): (p: string)
    ensures |p| == |root| + 8 + |dir| + 1 + |name|
    ensures p[..|root|] == root
    ensures p[|root|..|root| + 8] == "/source/"
    ensures p[|root| + 8..|root| + 8 + |dir|] == dir
    ensures p[|p| - |name| - 1..] == "/" + name
  {
    root + "/source/" + dir + "/" + name
  }

  /** Under one root and directory, distinct image names have distinct locations. */
  lemma ImageLocationInjective(root: string, dir: string, a: string, b: string)
    requires ImageLocation(root, dir, a) == ImageLocation(root, dir, b)
    ensures a == b
  {
    var pa, pb := ImageLocation(root, dir, a), ImageLocation(root, dir, b);
    assert |a| == |b|;
    assert a == pa[|pa| - |a|..] == pb[|pb| - |b|..] == b;
  }

  /** The link used outside build mode: `../<dir>/<name>`. */
  function PreviewLink(dir: string, name: string): (r: string)
    ensures |r| == 3 + |dir| + 1 + |name|
    ensures r[..3] == "../" && r[3..3 + |dir|] == dir && r[3 + |dir|] == '/' && r[|r| - |name|..] == name
  {
    "../" + dir + "/" + name
  }

  /**
   * `get_remote_path`. In build mode the image's absolute location must
   * exist, and only then is the provider asked for its link, which is
   * returned verbatim; otherwise the relative preview link is returned.
   */
  function GetRemotePath(env: Environment, root: string, dir: string, name: string,
                         fileExists: string -> bool, remoteLink: string -> string): (r: Result<string, Error>)
    ensures env != Build ==> r == Success(PreviewLink(dir, name))
    ensures env == Build && !fileExists(ImageLocation(root, dir, name)) ==> r == Failure(NotFound)
    ensures env == Build && fileExists(ImageLocation(root, dir, name)) ==>
      r == Success(remoteLink(ImageLocation(root, dir, name)))
    ensures r.Failure? <==> env == Build && !fileExists(ImageLocation(root, dir, name))
  {
    if env == Build then
      var imagePath := ImageLocation(root, dir, name);
      if !fileExists(imagePath) then Failure(NotFound)
      else Success(remoteLink(imagePath))
    else
      Success(PreviewLink(dir, name))
  }

  /**
   * Outside build mode neither the file system, nor the provider, nor the
   * application root is consulted: any other answers give the same link.
   */
  lemma PreviewConsultsNothing(env: Environment, root: string, root': string, dir: string, name: string,
                               fileExists: string -> bool, fileExists': string -> bool,
                               remoteLink: string -> string, remoteLink': string -> string)
    requires env != Build
    ensures GetRemotePath(env, root, dir, name, fileExists, remoteLink)
         == GetRemotePath(env, root', dir, name, fileExists', remoteLink')
         == Success("../" + dir + "/" + name)
  {
  }

  /** A missing file fails the build before the provider is asked: any provider gives the same failure. */
  lemma MissingImageNeverReachesProvider(root: string, dir: string, name: string, fileExists: string -> bool,
                                         remoteLink: string -> string, remoteLink': string -> string)
    requires !fileExists(root + "/source/" + dir + "/" + name)
    ensures GetRemotePath(Build, root, dir, name, fileExists, remoteLink)
         == GetRemotePath(Build, root, dir, name, fileExists, remoteLink')
         == Failure(NotFound)
  {
  }

  /**
   * In build mode, the file system and the provider are consulted at one
   * path only, the image's location: two of each that agree there give the
   * same result.
   */
  lemma BuildConsultsOnlyImageLocation(root: string, dir: string, name: string,
                                       fileExists: string -> bool, fileExists': string -> bool,
                                       remoteLink: string -> string, remoteLink': string -> string)
    requires fileExists(ImageLocation(root, dir, name)) == fileExists'(ImageLocation(root, dir, name))
    requires remoteLink(ImageLocation(root, dir, name)) == remoteLink'(ImageLocation(root, dir, name))
    ensures GetRemotePath(Build, root, dir, name, fileExists, remoteLink)
         == GetRemotePath(Build, root, dir, name, fileExists', remoteLink')
  {
  }

  /**
   * `remote_image_tag_link`: the provider is built first, from the current
   * options, and only then is the path resolved with it. `dir` is the
   * memoised staging directory name.
   */
  function TagLink(options: Options, classes: Classes, app: App, dir: string, name: string,
                   fileExists: string -> bool): (r: Result<string, Error>)
    ensures ClassName(ToS(options.provider)) !in classes ==>
      r == Failure(UnknownProvider(ClassName(ToS(options.provider))))
    ensures ClassName(ToS(options.provider)) in classes ==>
      r == GetRemotePath(app.environment, app.rootPath, dir, name, fileExists,
                         RemoteLinkOf(ProviderFor(options.provider, options.providerConfig, classes).value))
  {
    match ProviderFor(options.provider, options.providerConfig, classes)
    case Failure(e) => Failure(e)
    case Success(provider) =>
      GetRemotePath(app.environment, app.rootPath, dir, name, fileExists, RemoteLinkOf(provider))
  }

  /** An unknown provider makes every call fail, in preview as in build mode. */
  lemma UnknownProviderFailsInEveryEnvironment(options: Options, classes: Classes, root: string,
                                               env: Environment, dir: string, name: string,
                                               fileExists: string -> bool)
    requires ClassName(ToS(options.provider)) !in classes
    ensures TagLink(options, classes, App(root, env), dir, name, fileExists).Failure?
    ensures TagLink(options, classes, App(root, env), dir, name, fileExists).error.UnknownProvider?
  {
  }

  /** With a known provider, a build-mode link for an existing file is that provider's link for the image's location. */
  lemma BuildLinkIsProviderLink(options: Options, classes: Classes, root: string, dir: string, name: string,
                                fileExists: string -> bool)
    requires ClassName(ToS(options.provider)) in classes
    requires fileExists(ImageLocation(root, dir, name))
    ensures var backend := classes[ClassName(ToS(options.provider))];
      TagLink(options, classes, App(root, Build), dir, name, fileExists)
        == Success(backend(options.providerConfig, root + "/source/" + dir + "/" + name))
  {
  }

  /** Provider names that differ only in letter case give the same links and the same failures. */
  lemma TagLinkIgnoresProviderCase(options: Options, name': Option<string>, classes: Classes, app: App,
                                   dir: string, name: string, fileExists: string -> bool)
    requires Downcase(ToS(options.provider)) == Downcase(ToS(name'))
    ensures TagLink(options, classes, app, dir, name, fileExists)
         == TagLink(options.(provider := name'), classes, app, dir, name, fileExists)
  {
    ProviderForIgnoresCase(options.provider, name', options.providerConfig, classes);
  }

  /** With the default staging directory, previewing `logo.png` links to `../remote_images/logo.png`. */
  lemma PreviewExample(classes: Classes, root: string, fileExists: string -> bool)
    requires ClassName("stub") in classes
    ensures TagLink(Options(Some("stub"), None, None), classes, App(root, Other("development")),
                    DirChoice(None), "logo.png", fileExists)
         == Success("../remote_images/logo.png")
  {
    assert ToS(Some("stub")) == "stub";
    assert PreviewLink(DefaultImagesDir, "logo.png") == "../remote_images/logo.png";
  }
}
