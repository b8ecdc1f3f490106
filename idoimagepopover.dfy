/**
  `iDo/Poper/IDOImagePopover.swift`: a popover showing one image, taken
  from a fixed size, an image, a local file or a remote URL, in that order.

  An image is known here only by its size. The file system, the image
  decoder and URL parsing are outside the model and come in as an
  `Environment`; the remote download that finishes later is left out.
 */
module IDOImagePopover {
  import opened Geometry
  import opened Wrappers
  import opened IDOPopover
  import CocoaCG

  /** The platform answers the loaders depend on. */
  datatype Environment = Environment(
    /** `FileManager.default.fileExists(atPath:)`. */
    fileExists: string -> bool,
    /** `Data(contentsOf:)` then `UIImage(data:)`: an error code, or the decoded image's size if any. */
    readImage: string -> Result<Option<Size>, int>,
    /** `URL(string:)` succeeds. */
    urlParses: string -> bool)

  /** The error codes the popover throws. */
  const NoSource := -1000
  const MissingFile := -1001
  const BadFixedSize := -1002
  const BadRemotePath := -1003

  /** `getBasePath()` joined with the path as `appendingPathComponent` does for a plain name. */
  function AbsolutePath(path: string, baseDirectory: Option<string>): string {
    if baseDirectory.Some? then baseDirectory.value + "/" + path else path
  }

  /**
    The fixed-size branch of `estimationImageSize()`: a non-positive side is
    rejected, otherwise the padding and the arrow are taken off.
   */
  function FixedImageSize(fixed: Size, loc: Location, isArrowed: bool): (r: Result<Size, int>)
    ensures r.Err? <==> fixed.width <= 0.0 || fixed.height <= 0.0
    ensures r.Err? ==> r.error == BadFixedSize
    ensures r.Ok? && (loc == Left || loc == Right) ==>
      r.value == Size(fixed.width - 16.0 - ArrowHeight(isArrowed), fixed.height - 16.0)
    ensures r.Ok? && loc != Left && loc != Right ==>
      r.value == Size(fixed.width - 16.0, fixed.height - 16.0 - ArrowHeight(isArrowed))
  {
    if fixed.width <= 0.0 || fixed.height <= 0.0 then Err(BadFixedSize)
    else match loc
      case Left => Ok(CocoaCG.SizeAdd(fixed, -16.0 - ArrowHeight(isArrowed), -16.0))
      case Right => Ok(CocoaCG.SizeAdd(fixed, -16.0 - ArrowHeight(isArrowed), -16.0))
      case _ => Ok(CocoaCG.SizeAdd(fixed, -16.0, -16.0 - ArrowHeight(isArrowed)))
  }

  /**
    With the popover's own insets, a valid fixed size is exactly the box the
    payload gets: the fixed-size image fills the subview frame.
   */
  lemma FixedImageFillsSubview(sc: Screen, anchor: Rect, loc: Location, isArrowed: bool, fixed: Size)
    requires fixed.width > 0.0 && fixed.height > 0.0
    ensures var r := FixedImageSize(fixed, loc, isArrowed);
      r.Ok? && r.value == SubviewFrame(SideOf(sc, anchor, loc), ArrowHeight(isArrowed), fixed).size
  {
  }

  /** What `loadLocalImage(with:)` returns or throws, given the popover's `image`. */
  function LocalResult(path: string, baseDirectory: Option<string>, image: Option<Size>, env: Environment): Result<Size, int> {
    var absolute := AbsolutePath(path, baseDirectory);
    if !env.fileExists(absolute) then Err(MissingFile)
    else match env.readImage(absolute)
      case Err(e) => Err(e)
      case Ok(_) => Ok(image.GetOr(ZeroSize))
  }

  /** What `loadRemoteImage(with:)` returns or throws, given the image view's image. */
  function RemoteResult(path: string, viewImage: Option<Size>, env: Environment): Result<Size, int> {
    if viewImage.Some? then Ok(viewImage.value)
    else if env.urlParses(path) then Ok(Size(120.0, 120.0))
    else Err(BadRemotePath)
  }

  /** The image view's image after `loadLocalImage(with:)`: replaced only when the file was read. */
  function ViewImageAfterLocal(path: string, baseDirectory: Option<string>, viewImage: Option<Size>, env: Environment): Option<Size> {
    var absolute := AbsolutePath(path, baseDirectory);
    if env.fileExists(absolute) && env.readImage(absolute).Ok? then env.readImage(absolute).value else viewImage
  }

  /** What `estimationImageSize()` returns or throws: the first source present decides. */
  function EstimatedImageSize(fixed: Option<Size>, loc: Location, isArrowed: bool, image: Option<Size>,
                              localPath: Option<string>, remotePath: Option<string>, baseDirectory: Option<string>,
                              viewImage: Option<Size>, env: Environment): Result<Size, int>
  {
    if fixed.Some? then FixedImageSize(fixed.value, loc, isArrowed)
    else if image.Some? then Ok(image.value)
    else if localPath.Some? then LocalResult(localPath.value, baseDirectory, image, env)
    else if remotePath.Some? then RemoteResult(remotePath.value, viewImage, env)
    else Err(NoSource)
  }

  /**
    Sources are tried in order: a fixed size hides everything after it, an
    image hides the paths, a local path hides the remote one; with none,
    -1000 is thrown.
   */
  lemma SourcePriority(fixed: Option<Size>, loc: Location, isArrowed: bool, image: Option<Size>,
                       localPath: Option<string>, remotePath: Option<string>, baseDirectory: Option<string>,
                       viewImage: Option<Size>, env: Environment)
    ensures var r := EstimatedImageSize(fixed, loc, isArrowed, image, localPath, remotePath, baseDirectory, viewImage, env);
      && (fixed.Some? ==> r == EstimatedImageSize(fixed, loc, isArrowed, None, None, None, baseDirectory, None, env))
      && (fixed.None? && image.Some? ==> r == Ok(image.value))
      && (fixed.None? && image.None? && localPath.Some? ==>
            r == EstimatedImageSize(None, loc, isArrowed, None, localPath, None, baseDirectory, None, env))
      && (fixed.None? && image.None? && localPath.None? && remotePath.None? ==> r == Err(NoSource))
  {
  }

  /**
    On the estimation path a successful local load reports a zero size: the
    size is read from the popover's `image`, which is nil there, not from the
    image just decoded.
   */
  lemma LocalLoadReportsZero(loc: Location, isArrowed: bool, path: string, remotePath: Option<string>,
                             baseDirectory: Option<string>, viewImage: Option<Size>, env: Environment)
    ensures var r := EstimatedImageSize(None, loc, isArrowed, None, Some(path), remotePath, baseDirectory, viewImage, env);
      var absolute := AbsolutePath(path, baseDirectory);
      && (!env.fileExists(absolute) ==> r == Err(MissingFile))
      && (env.fileExists(absolute) && env.readImage(absolute).Ok? ==> r == Ok(ZeroSize))
      && (env.fileExists(absolute) && env.readImage(absolute).Err? ==> r == Err(env.readImage(absolute).error))
  {
  }

  /** `IDOImagePopover`: the sources, the image view and the spinners added to it. */
  class ImagePopover {
    const popover: Popover
    /** `getBasePath()` for the chosen `basePath`; nil for `.none`. */
    const baseDirectory: Option<string>
    var image: Option<Size>
    var localPath: Option<string>
    var remotePath: Option<string>
    var isLoading: bool
    /** `imageView.image` and the number of activity indicators added to the image view. */
    var viewImage: Option<Size>
    var spinners: nat

    constructor (popover: Popover, baseDirectory: Option<string>)
      ensures this.popover == popover && this.baseDirectory == baseDirectory
      ensures image == None && localPath == None && remotePath == None
      ensures isLoading && viewImage == None && spinners == 0
    {
      this.popover := popover;
      this.baseDirectory := baseDirectory;
      image := None;
      localPath := None;
      remotePath := None;
      isLoading := true;
      viewImage := None;
      spinners := 0;
    }

    /** `loadLocalImage(with:)`. */
    method LoadLocalImage(path: string, env: Environment) returns (r: Result<Size, int>)
      modifies this`viewImage
      ensures r == LocalResult(path, baseDirectory, image, env)
      ensures viewImage == ViewImageAfterLocal(path, baseDirectory, old(viewImage), env)
    {
      var absolute := AbsolutePath(path, baseDirectory);
      if env.fileExists(absolute) {
        var data := env.readImage(absolute);
        if data.Err? {
          return Err(data.error);
        }
        viewImage := data.value;
        return Ok(image.GetOr(ZeroSize));
      } else {
        return Err(MissingFile);
      }
    }

    /** `loadRemoteImage(with:)`: the download itself runs later and is left out. */
    method LoadRemoteImage(path: string, env: Environment) returns (r: Result<Size, int>)
      modifies this`spinners
      ensures spinners == old(spinners) + (if isLoading then 1 else 0)
      ensures r == RemoteResult(path, viewImage, env)
    {
      if isLoading {
        spinners := spinners + 1;
      }
      if viewImage.Some? {
        return Ok(viewImage.value);
      }
      if env.urlParses(path) {
        return Ok(Size(120.0, 120.0));
      }
      return Err(BadRemotePath);
    }

    /** `estimationImageSize()`. */
    method EstimationImageSize(env: Environment) returns (r: Result<Size, int>)
      modifies this`viewImage, this`spinners
      ensures r == EstimatedImageSize(popover.fixedContentSize, popover.location, popover.isArrowed,
                                      image, localPath, remotePath, baseDirectory, old(viewImage), env)
      ensures var local := popover.fixedContentSize.None? && image.None? && localPath.Some?;
        viewImage == if local then ViewImageAfterLocal(localPath.value, baseDirectory, old(viewImage), env) else old(viewImage)
      ensures var remote := popover.fixedContentSize.None? && image.None? && localPath.None? && remotePath.Some?;
        spinners == old(spinners) + (if remote && isLoading then 1 else 0)
    {
      if popover.fixedContentSize.Some? {
        var fixed := popover.fixedContentSize.value;
        if fixed.width <= 0.0 || fixed.height <= 0.0 {
          return Err(BadFixedSize);
        }
        match popover.location {
          case Left => return Ok(CocoaCG.SizeAdd(fixed, -16.0 - ArrowHeight(popover.isArrowed), -16.0));
          case Right => return Ok(CocoaCG.SizeAdd(fixed, -16.0 - ArrowHeight(popover.isArrowed), -16.0));
          case _ => return Ok(CocoaCG.SizeAdd(fixed, -16.0, -16.0 - ArrowHeight(popover.isArrowed)));
        }
      }
      if image.Some? {
        return Ok(image.value);
      }
      if localPath.Some? {
        r := LoadLocalImage(localPath.value, env);
        return;
      }
      if remotePath.Some? {
        r := LoadRemoteImage(remotePath.value, env);
        return;
      }
      return Err(NoSource);
    }

    /** `show()`: lays out and presents only when the estimation succeeds. */
    method Show(env: Environment, hasKeyWindow: bool)
      modifies this`viewImage, this`spinners, popover
      ensures var est := EstimatedImageSize(popover.fixedContentSize, popover.location, popover.isArrowed,
                                            image, localPath, remotePath, baseDirectory, old(viewImage), env);
        && (est.Ok? ==> popover.Presented(est.value, hasKeyWindow))
        && (est.Err? ==> unchanged(popover))
      ensures var local := popover.fixedContentSize.None? && image.None? && localPath.Some?;
        viewImage == if local then ViewImageAfterLocal(localPath.value, baseDirectory, old(viewImage), env) else old(viewImage)
      ensures var remote := popover.fixedContentSize.None? && image.None? && localPath.None? && remotePath.Some?;
        spinners == old(spinners) + (if remote && isLoading then 1 else 0)
    {
      var est := EstimationImageSize(env);
      if est.Ok? {
        popover.Present(est.value, hasKeyWindow);
      }
    }
  }
}
