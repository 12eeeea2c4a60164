# middleman-image-uploader-tag: link resolution, modelled in Dafny

This project models the Middleman extension `Middleman::ImageUploaderTag::Extension`.
Its template helper `remote_image_tag_link(image_name)` turns an image name into a link.
In the `:build` environment, the image must exist in the local staging folder
`<root>/source/<remote_images_dir>/<name>`. That absolute path is then handed to the
configured CDN provider, and the provider's `get_remote_link` result is returned unchanged.
In any other environment the helper returns the relative link `../<remote_images_dir>/<name>`.
It does not check the file system or call `get_remote_link`. The provider is still looked up
and built.

The provider is found by name. The `provider` option is capitalized and becomes the class
`::Middleman::ImageUploaderTag::<Name>CDN`. A new instance of that class is built from
`provider_config` on every call. The staging folder name comes from the `remote_images_dir`
option, or `remote_images` when that option is `nil`. It is memoised in a class variable the
first time it is asked for.

Modules, one concept each:

- `Wrappers`, `Errors`: `Option` (Ruby's `nil`), `Result`, and the two exceptions
  (`NotFound`, `UnknownProvider`).
- `AsciiCase`: Ruby's `String#capitalize` and `String#downcase` on ASCII.
- `Registry`: the class-name construction, the lookup of that class in a finite map of known
  provider classes, and the provider instance it builds.
- `Resolution`: link resolution as pure functions (`image_location`, `get_remote_path`,
  `remote_image_tag_link`, the `remote_images_dir` fallback), with the lemmas about them.
- `Extension`: the class variables as the fields of a class `ExtensionClass`, with methods for
  `initialize`, `remote_images_dir`, `provider`, `image_location`, `get_remote_path` and the
  helper. Each query method is proved equal to the pure function of the state it reads. The
  constructor and `Initialize` have no such function: their contracts give the new state directly.

The file system appears in two abstract forms. `fileExists: string -> bool` stands for
`File.exist?`, and a set of directory paths stands for `Dir.exist?`/`Dir.mkdir`. A provider's
`get_remote_link` is an opaque function of the provider configuration and the local path.

Two consequences of the evaluation order in the helper:

- `klass.provider` (line 38) builds a new provider on every helper call, and nothing memoises it.
- It is evaluated before `get_remote_path` branches on the environment, so an unknown provider
  fails every call, preview included.

## Model

| member | source | states |
|---|---|---|
| AsciiCase.Capitalize | lib/middleman/image-uploader-tag/extension.rb:48 | `capitalize` keeps the length, upper-cases the first character and lower-cases every later one; the result has the capitalized shape |
| AsciiCase.CapitalizeIgnoresCase | lib/middleman/image-uploader-tag/extension.rb:48 | two names capitalize to the same string if and only if they are equal after lower-casing |
| AsciiCase.CapitalizeFixpoints | lib/middleman/image-uploader-tag/extension.rb:48 | `capitalize` leaves a string unchanged if and only if its head is not lower-case and its tail has no upper-case letter |
| AsciiCase.CapitalizeIdempotent | lib/middleman/image-uploader-tag/extension.rb:48 | capitalizing twice is the same as capitalizing once |
| Registry.ToS | lib/middleman/image-uploader-tag/extension.rb:48 | `to_s` on the `provider` option gives the name, or the empty string for `nil` |
| Registry.ClassName | lib/middleman/image-uploader-tag/extension.rb:48 | the class name is `::Middleman::ImageUploaderTag::`, then the capitalized provider name, then `CDN`, and its middle part can be read back |
| Registry.ClassNameIgnoresCase | lib/middleman/image-uploader-tag/extension.rb:46-50 | provider names name the same class if and only if they agree up to letter case |
| Registry.ProviderFor | lib/middleman/image-uploader-tag/extension.rb:46-50 | the lookup succeeds if and only if the class exists; it then builds that class with `provider_config`, and otherwise fails with `UnknownProvider` carrying the class name |
| Registry.ProviderForIgnoresCase | lib/middleman/image-uploader-tag/extension.rb:46-50 | provider names that differ only in letter case select the same provider or fail alike |
| Resolution.DirChoice | lib/middleman/image-uploader-tag/extension.rb:72 | the configured directory is used whenever it is non-nil (an empty name is kept); only `nil` falls back to `remote_images` |
| Resolution.ImageLocationInjective | lib/middleman/image-uploader-tag/extension.rb:42-44 | with the root and the directory fixed, distinct image names give distinct locations |
| Resolution.ImageLocation | lib/middleman/image-uploader-tag/extension.rb:42-44 | the absolute location of an image is the app root, then `/source/`, then the staging directory, and ends in `/` followed by the image name; each part can be read back |
| Resolution.PreviewLink | lib/middleman/image-uploader-tag/extension.rb:59 | the preview link is `../`, the directory, `/`, and the image name |
| Resolution.GetRemotePath | lib/middleman/image-uploader-tag/extension.rb:52-61 | outside build mode the result is the preview link; in build mode a missing file gives `NotFound`, and an existing one gives the provider's link for the image location verbatim; it fails exactly in the missing-file case |
| Resolution.PreviewConsultsNothing | lib/middleman/image-uploader-tag/extension.rb:53-59 | outside build mode the result is `../<dir>/<name>` whatever the file system, the provider and the root |
| Resolution.MissingImageNeverReachesProvider | lib/middleman/image-uploader-tag/extension.rb:53-55 | in build mode a missing image fails with `NotFound` whatever the provider would answer |
| Resolution.BuildConsultsOnlyImageLocation | lib/middleman/image-uploader-tag/extension.rb:53-57 | in build mode the file system and the provider are asked about the image location only |
| Resolution.TagLink | lib/middleman/image-uploader-tag/extension.rb:35-39 | the helper fails with `UnknownProvider` when the class is missing; otherwise it is `get_remote_path` with the provider just built |
| Resolution.UnknownProviderFailsInEveryEnvironment | lib/middleman/image-uploader-tag/extension.rb:35-39 | an unknown provider makes the helper fail with `UnknownProvider` in every environment, preview included |
| Resolution.BuildLinkIsProviderLink | lib/middleman/image-uploader-tag/extension.rb:35-57 | in build mode, for an existing file, the helper returns the provider's link for `<root>/source/<dir>/<name>` built with `provider_config` |
| Resolution.TagLinkIgnoresProviderCase | lib/middleman/image-uploader-tag/extension.rb:38-50 | changing only the letter case of the provider option changes no link and no failure |
| Resolution.PreviewExample | lib/middleman/image-uploader-tag/extension.rb:53-59 | with the default directory, previewing `logo.png` gives `../remote_images/logo.png` |
| Extension.ExtensionClass.constructor | lib/middleman/image-uploader-tag/extension.rb:63-73 | before activation no class variable is set |
| Extension.ExtensionClass.RemoteImagesDir | lib/middleman/image-uploader-tag/extension.rb:71-73 | returns the memo when set and changes nothing; otherwise it computes the option-or-default and memoises it |
| Extension.ExtensionClass.Initialize | lib/middleman/image-uploader-tag/extension.rb:15-28 | records the options and the app, keeps an earlier memoised directory, and leaves `source/<dir>` existing; the set of directories changes only by adding that one, so a second run changes nothing |
| Extension.ExtensionClass.NewProvider | lib/middleman/image-uploader-tag/extension.rb:46-50 | builds the provider from the options current at the call |
| Extension.ExtensionClass.ImageLocation | lib/middleman/image-uploader-tag/extension.rb:42-44 | returns the image location under the app root and the memoised directory, leaving the state as it was |
| Extension.ExtensionClass.GetRemotePath | lib/middleman/image-uploader-tag/extension.rb:52-61 | agrees with `Resolution.GetRemotePath` on the current state, leaving the state as it was |
| Extension.ExtensionClass.RemoteImageTagLink | lib/middleman/image-uploader-tag/extension.rb:35-39 | agrees with `Resolution.TagLink` on the current state, leaving the state as it was |
| Extension.Reactivate | lib/middleman/image-uploader-tag/extension.rb:46-73 | after a second activation with other options, the provider follows the new options but the staging directory stays the one memoised first |

## Left out

- `remote_image_tag` (line 31-33): wrapping the link in an `<img>` element is Middleman's `image_tag`, a host-library call. Only the link is modelled.
- The Middleman framework plumbing: the `option` declarations, the `super` call and the `helpers do` registration. These are library behaviour outside the extension.
- The real file system. `File.exist?` is the parameter `fileExists`, which answers for whatever exists at a path, directories included. `Dir.exist?`/`Dir.mkdir` work on an abstract set of paths.
- Extension.ExtensionClass.Initialize: no error path of `initialize` is modelled. `Dir.mkdir` raises when `source/` or an intermediate directory of `<dir>` is missing, when a regular file already sits at `source/<dir>` (`Dir.exist?` is false for it), and on permission errors; the model always adds the directory. Paths are relative to the working directory, while `image_location` uses the app root.
- Extension.ExtensionClass: the app and the options are copied as values at Initialize. The class variables hold references to the live objects, and `app.root_path` and `app.config.environment` are read on every call, so a later change to the live app or options between activations is not seen by the model.
- A provider's `get_remote_link` and its constructor. Both are opaque and total, so errors a provider raises (network, credentials) are not modelled.
- Ruby constant resolution through `Object.const_get`. It is replaced by a finite map from class name to provider behaviour.
- AsciiCase.Capitalize: covers ASCII letters only. Ruby's `capitalize` also case-maps non-ASCII letters and title-cases the first one.
- Registry.ToS: the `provider` option is taken as a string or `nil`. A Symbol such as `:s3` has the same `to_s` as the string `"s3"`.
- Resolution.DirChoice: the option is taken as a string or `nil`. A `false` value, which `||` would also skip, is not modelled.
- `NotFound`: its definition is not part of this model. It is a plain error variant without a message.
- Concurrency: the code has none, and no guarded or once-only provider construction exists to model.
