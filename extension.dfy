/**
 * The class-level state of `Middleman::ImageUploaderTag::Extension`: the
 * class variables `@@provider_options`, `@@app` and the memoised
 * `@@remote_images_dir`, together with the set of directories that exist
 * on disk. One `ExtensionClass` object stands for the Ruby class itself.
 */
module Extension {
  import opened Wrappers
  import opened Errors
  import opened Registry
  import Resolution

  class ExtensionClass {
    /** `@@provider_options`, unset until the extension is activated. */
    var providerOptions: Option<Resolution.Options>
    /** `@@app`, unset until the extension is activated. */
    var app: Option<Resolution.App>
    /** `@@remote_images_dir`, unset until `remote_images_dir` is first called. */
    var remoteImagesDirMemo: Option<string>
    /** Directories that exist, as paths relative to the working directory. */
    var dirs: set<string>

    /** The class variables are all set: `initialize` has run at least once. */
    ghost predicate Activated()
      reads this
    {
      providerOptions.Some? && app.Some? && remoteImagesDirMemo.Some?
    }

    /** The class before any extension instance exists. */
    constructor (existingDirs: set<string>)
      ensures providerOptions == None && app == None && remoteImagesDirMemo == None
      ensures dirs == existingDirs
    {
      providerOptions := None;
      app := None;
      remoteImagesDirMemo := None;
      dirs := existingDirs;
    }

    /**
     * `self.remote_images_dir`: the memo if set; otherwise the configured
     * directory, or the default, which is then memoised for good.
     */
    method RemoteImagesDir() returns (d: string)
      requires remoteImagesDirMemo.Some? || providerOptions.Some?
      modifies this`remoteImagesDirMemo
      ensures old(remoteImagesDirMemo).Some? ==> d == old(remoteImagesDirMemo).value
      ensures old(remoteImagesDirMemo).None? ==> d == Resolution.DirChoice(providerOptions.value.remoteImagesDir)
      ensures remoteImagesDirMemo == Some(d)
    {
      if remoteImagesDirMemo.None? {
        remoteImagesDirMemo := Some(Resolution.DirChoice(providerOptions.value.remoteImagesDir));
      }
      d := remoteImagesDirMemo.value;
    }

    /**
     * `initialize`: record the options and the app, then make sure
     * `source/<remote_images_dir>` exists, creating it only when absent.
     * A directory name memoised by an earlier activation is kept.
     */
    method Initialize(a: Resolution.App, options: Resolution.Options)
      modifies this
      ensures providerOptions == Some(options) && app == Some(a)
      ensures old(remoteImagesDirMemo).Some? ==> remoteImagesDirMemo == old(remoteImagesDirMemo)
      ensures old(remoteImagesDirMemo).None? ==>
        remoteImagesDirMemo == Some(Resolution.DirChoice(options.remoteImagesDir))
      ensures Activated()
      ensures "source/" + remoteImagesDirMemo.value in dirs
      ensures dirs == old(dirs) + {"source/" + remoteImagesDirMemo.value}
      ensures "source/" + remoteImagesDirMemo.value in old(dirs) ==> dirs == old(dirs)
    {
      providerOptions := Some(options);
      app := Some(a);
      var dir := RemoteImagesDir();
      var imgDir := "source/" + dir;
      if imgDir !in dirs {
        dirs := dirs + {imgDir};
      }
    }

    /** `self.provider`: a new provider instance built from the current options on every call. */
    method NewProvider(classes: Classes) returns (r: Result<Provider, Error>)
      requires providerOptions.Some?
      ensures r == ProviderFor(providerOptions.value.provider, providerOptions.value.providerConfig, classes)
    {
      var options := providerOptions.value;
      r := ProviderFor(options.provider, options.providerConfig, classes);
    }

    /** `self.image_location`. */
    method ImageLocation(name: string) returns (p: string)
      requires Activated()
      modifies this`remoteImagesDirMemo
      ensures remoteImagesDirMemo == old(remoteImagesDirMemo)
      ensures p == Resolution.ImageLocation(app.value.rootPath, remoteImagesDirMemo.value, name)
    {
      var dir := RemoteImagesDir();
      p := Resolution.ImageLocation(app.value.rootPath, dir, name);
    }

    /** `self.get_remote_path`. */
    method GetRemotePath(provider: Provider, name: string, fileExists: string -> bool) returns (r: Result<string, Error>)
      requires Activated()
      modifies this`remoteImagesDirMemo
      ensures remoteImagesDirMemo == old(remoteImagesDirMemo)
      ensures r == Resolution.GetRemotePath(app.value.environment, app.value.rootPath, remoteImagesDirMemo.value,
                                            name, fileExists, RemoteLinkOf(provider))
    {
      if app.value.environment == Resolution.Build {
        var imagePath := ImageLocation(name);
        if !fileExists(imagePath) {
          return Failure(NotFound);
        }
        r := Success(provider.backend(provider.config, imagePath));
      } else {
        var dir := RemoteImagesDir();
        r := Success(Resolution.PreviewLink(dir, name));
      }
    }

    /**
     * The `remote_image_tag_link` helper: build the provider, then resolve
     * the path with it. The class state is left as it was.
     */
    method RemoteImageTagLink(classes: Classes, name: string, fileExists: string -> bool)
      returns (r: Result<string, Error>)
      requires Activated()
      modifies this`remoteImagesDirMemo
      ensures remoteImagesDirMemo == old(remoteImagesDirMemo)
      ensures r == Resolution.TagLink(providerOptions.value, classes, app.value, remoteImagesDirMemo.value,
                                      name, fileExists)
    {
      var provider := NewProvider(classes);
      if provider.Failure? {
        return Failure(provider.error);
      }
      r := GetRemotePath(provider.value, name, fileExists);
    }
  }

  /**
   * Activating the extension a second time with other options changes the
   * provider later calls build, but not the staging directory, which the
   * first activation memoised.
   */
  method Reactivate(ext: ExtensionClass, a: Resolution.App, first: Resolution.Options, second: Resolution.Options,
                    classes: Classes)
    returns (before: Result<Provider, Error>, after: Result<Provider, Error>, dirBefore: string, dirAfter: string)
    requires ext.remoteImagesDirMemo.None?
    modifies ext
    ensures before == ProviderFor(first.provider, first.providerConfig, classes)
    ensures after == ProviderFor(second.provider, second.providerConfig, classes)
    ensures dirBefore == dirAfter == Resolution.DirChoice(first.remoteImagesDir)
  {
    ext.Initialize(a, first);
    before := ext.NewProvider(classes);
    dirBefore := ext.RemoteImagesDir();
    ext.Initialize(a, second);
    after := ext.NewProvider(classes);
    dirAfter := ext.RemoteImagesDir();
  }
}
