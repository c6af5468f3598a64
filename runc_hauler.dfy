/**
 * The runc hauler: the adapter the migration engine uses for a runc
 * container. Commands are built here and run elsewhere, so the exit code of
 * each runc invocation, the parsed output of `runc state`, and the file
 * system the meta images live in are passed in as values.
 */
module RuncHaul {
  import opened Wrappers
  import opened Paths
  import opened ContainerIds

  const RuncBin := "/usr/bin/runc"
  const RuncConfName := "config.json"
  const BundleImage := "bundle.txt"
  const DescriptorsImage := "descriptors.json"
  const ImagePathFlag := "--image-path="
  const BundleFlag := "--bundle="

  /** The ways the hauler's operations fail. */
  datatype Error =
    | InvalidName(ctid: string)          // the constructor rejects the identifier
    | ContainerNotRunning(ctid: string)  // `runc state` exits non-zero
    | InvalidState                       // the state document lacks a key
    | BundleNotSet                       // the bundle is read before anything assigned it
    | BundleFileMissing(path: string)    // bundle.txt cannot be opened for reading
    | CheckpointFailed                   // `runc checkpoint` exits non-zero
    | RestoreFailed                      // `runc restore` exits non-zero

  /** What `runc state <id>` yields: a failed run, or the fields of the JSON document it prints. */
  datatype StateQuery = QueryFailed | StateDocument(fields: map<string, string>)

  /** A file system: the contents of each file, by path. */
  type FileSystem = map<string, string>

  // ---------------------------------------------------------------------------
  // Command lines

  /** A runc invocation, as runc reads it back from its argument vector. */
  datatype RuncCall =
    | Checkpoint(imageDir: string, ctid: string)
    | Restore(bundle: string, imageDir: string, ctid: string)

  /** Decodes the argument vectors the hauler issues; anything else is None. */
  function ParseArgv(argv: seq<string>): Option<RuncCall>
  {
    if |argv| == 4 && argv[0] == RuncBin && argv[1] == "checkpoint"
       && ImagePathFlag <= argv[2]
    then Some(Checkpoint(argv[2][|ImagePathFlag|..], argv[3]))
    else if |argv| == 6 && argv[0] == RuncBin && argv[1] == "restore" && argv[2] == "-d"
       && BundleFlag <= argv[3] && ImagePathFlag <= argv[4]
    then Some(Restore(argv[3][|BundleFlag|..], argv[4][|ImagePathFlag|..], argv[5]))
    else None
  }

  /** The argv of `runc checkpoint`: it names the image directory and ends with the container. */
  function CheckpointArgv(imageDir: string, ctid: string): (argv: seq<string>)
    ensures |argv| == 4 && argv[0] == RuncBin && argv[1] == "checkpoint" && argv[3] == ctid
    ensures ParseArgv(argv) == Some(Checkpoint(imageDir, ctid))
  {
    var argv := [RuncBin, "checkpoint", ImagePathFlag + imageDir, ctid];
    assert argv[2][|ImagePathFlag|..] == imageDir;
    argv
  }

  /** The argv of `runc restore`: detached, from the given bundle and image directory. */
  function RestoreArgv(bundle: string, imageDir: string, ctid: string): (argv: seq<string>)
    ensures |argv| == 6 && argv[0] == RuncBin && argv[1] == "restore" && argv[2] == "-d"
    ensures argv[5] == ctid
    ensures ParseArgv(argv) == Some(Restore(bundle, imageDir, ctid))
  {
    var argv := [RuncBin, "restore", "-d", BundleFlag + bundle, ImagePathFlag + imageDir, ctid];
    assert argv[3][|BundleFlag|..] == bundle;
    assert argv[4][|ImagePathFlag|..] == imageDir;
    argv
  }

  /** A runc exit code read as the Python truth test `if ret:` does: any non-zero code is the failure. */
  function ExitStatus(ret: int, failure: Error): (r: Outcome<Error>)
    ensures r.Pass? <==> ret == 0
    ensures r.Fail? ==> r.error == failure
  {
    if ret != 0 then Fail(failure) else Pass
  }

  // ---------------------------------------------------------------------------
  // Meta images

  /**
   * The (path, name) pairs handed to the transport layer: bundle.txt, then
   * descriptors.json, both under `path`; each name is its path's basename.
   */
  function MetaImages(path: string): (images: seq<(string, string)>)
    ensures |images| == 2
    ensures images[0].1 == BundleImage && images[1].1 == DescriptorsImage
    ensures images[0].0 == Join(path, BundleImage) && images[1].0 == Join(path, DescriptorsImage)
    ensures BaseName(images[0].0) == BundleImage && BaseName(images[1].0) == DescriptorsImage
    ensures images[0].0 != images[1].0
  {
    var bundleFile := Join(path, BundleImage);
    var descFile := Join(path, DescriptorsImage);
    ImageNames();
    BaseNameOfJoin(path, BundleImage);
    BaseNameOfJoin(path, DescriptorsImage);
    [(bundleFile, BundleImage), (descFile, DescriptorsImage)]
  }

  /** Both meta-image names are single, distinct path components. */
  lemma ImageNames()
    ensures IsName(BundleImage) && IsName(DescriptorsImage) && BundleImage != DescriptorsImage
  {
  }

  /** The file system after bundle.txt under `path` is opened for writing and `contents` written to it. */
  function WriteBundleFile(fs: FileSystem, path: string, contents: string): FileSystem
  {
    fs[Join(path, BundleImage) := contents]
  }

  /** The contents of bundle.txt under `dir`, if that file exists. */
  function ReadBundleFile(fs: FileSystem, dir: string): Option<string>
  {
    var p := Join(dir, BundleImage);
    if p in fs then Some(fs[p]) else None
  }

  /** Copies one listed file, if it exists on the source, under `dir` on the destination. */
  function CopyImage(image: (string, string), src: FileSystem, dir: string, dst: FileSystem): FileSystem
  {
    if image.0 in src then dst[Join(dir, image.1) := src[image.0]] else dst
  }

  /**
   * The transport layer, which is not part of this model, reduced to its
   * effect on meta images: every listed file that exists on the source is
   * copied under `dir` on the destination, under its name, in list order.
   */
  function Transfer(images: seq<(string, string)>, src: FileSystem, dir: string, dst: FileSystem): FileSystem
    decreases |images|
  {
    if images == [] then dst
    else Transfer(images[1..], src, dir, CopyImage(images[0], src, dir, dst))
  }

  lemma TransferTwo(x: (string, string), y: (string, string), src: FileSystem, dir: string, dst: FileSystem)
    ensures Transfer([x, y], src, dir, dst) == CopyImage(y, src, dir, CopyImage(x, src, dir, dst))
  {
    var d1 := CopyImage(x, src, dir, dst);
    assert [x, y][1..] == [y];
    assert Transfer([x, y], src, dir, dst) == Transfer([y], src, dir, d1);
    assert [y][1..] == [];
    assert Transfer([y], src, dir, d1) == Transfer([], src, dir, CopyImage(y, src, dir, d1));
  }

  /**
   * The bundle a source hauler writes into its meta images is the bundle a
   * destination hauler reads back, whatever directories the two sides use.
   */
  lemma BundleSurvivesTransfer(bundle: string, path: string, src: FileSystem, dir: string, dst: FileSystem)
    ensures ReadBundleFile(Transfer(MetaImages(path), WriteBundleFile(src, path, bundle), dir, dst), dir)
            == Some(bundle)
  {
    var images := MetaImages(path);
    var src' := WriteBundleFile(src, path, bundle);
    var bundleHere, descHere := Join(dir, BundleImage), Join(dir, DescriptorsImage);
    ImageNames();
    JoinInjective(dir, BundleImage, DescriptorsImage);
    assert images == [images[0], images[1]];
    TransferTwo(images[0], images[1], src', dir, dst);
    var afterBundle := CopyImage(images[0], src', dir, dst);
    assert afterBundle == dst[bundleHere := bundle];
    CopyElsewhere(images[1], src', dir, afterBundle, bundleHere);
  }

  /** Copying a file under another name leaves an existing destination file as it was. */
  lemma CopyElsewhere(image: (string, string), src: FileSystem, dir: string, dst: FileSystem, p: string)
    requires p in dst && Join(dir, image.1) != p
    ensures p in CopyImage(image, src, dir, dst) && CopyImage(image, src, dir, dst)[p] == dst[p]
  {
  }

  // ---------------------------------------------------------------------------
  // The hauler

  class RuncHauler {
    const ctid: string
    var containerState: Option<map<string, string>>
    var bundle: Option<string>
    var rootfs: Option<string>
    var config: Option<string>

    /** The identifier is valid; the rootfs and the config path are discovered together, from a state document. */
    ghost predicate Valid()
      reads this
    {
      && ValidCtid(ctid)
      && (rootfs.Some? <==> config.Some?)
      && (config.Some? ==> bundle.Some? && containerState.Some?)
    }

    constructor (ctid: string)
      requires ValidCtid(ctid)
      ensures Valid() && this.ctid == ctid
      ensures containerState == None && bundle == None && rootfs == None && config == None
    {
      this.ctid := ctid;
      containerState, bundle, rootfs, config := None, None, None, None;
    }

    /** Creates a hauler for `ctid`, or fails on an identifier outside `[A-Za-z0-9_-]{1,1024}`. */
    static method New(ctid: string) returns (r: Result<RuncHauler, Error>)
      ensures r.Success? <==> ValidCtid(ctid)
      ensures r.Failure? ==> r.error == InvalidName(ctid)
      ensures r.Success? ==>
                && fresh(r.value) && r.value.Valid() && r.value.ctid == ctid
                && r.value.containerState == None && r.value.bundle == None
                && r.value.rootfs == None && r.value.config == None
    {
      if !ValidCtid(ctid) {
        return Failure(InvalidName(ctid));
      }
      var h := new RuncHauler(ctid);
      r := Success(h);
    }

    /**
     * Source-side initialisation from the result of `runc state`. The fields
     * are assigned one after another, so a document without "rootfsPath"
     * still leaves its bundle behind.
     */
    method InitSrc(query: StateQuery) returns (r: Outcome<Error>)
      requires Valid()
      modifies this
      ensures Valid()
      ensures r.Pass? <==>
                query.StateDocument? && "bundlePath" in query.fields && "rootfsPath" in query.fields
      ensures query.QueryFailed? ==>
                && r == Fail(ContainerNotRunning(ctid))
                && containerState == old(containerState) && bundle == old(bundle)
                && rootfs == old(rootfs) && config == old(config)
      ensures query.StateDocument? ==> containerState == Some(query.fields)
      ensures query.StateDocument? && r.Fail? ==>
                r.error == InvalidState && rootfs == old(rootfs) && config == old(config)
      ensures query.StateDocument? ==>
                bundle == if "bundlePath" in query.fields then Some(query.fields["bundlePath"]) else old(bundle)
      ensures r.Pass? ==>
                && rootfs == Some(query.fields["rootfsPath"])
                && config == Some(Join(query.fields["bundlePath"], RuncConfName))
    {
      match query
      case QueryFailed =>
        r := Fail(ContainerNotRunning(ctid));
      case StateDocument(doc) =>
        containerState := Some(doc);
        if "bundlePath" !in doc {
          return Fail(InvalidState);
        }
        bundle := Some(doc["bundlePath"]);
        if "rootfsPath" !in doc {
          return Fail(InvalidState);
        }
        rootfs := Some(doc["rootfsPath"]);
        LoadCtConfig();
        r := Pass;
    }

    /** Derives the path of the container's config.json from the bundle. */
    method LoadCtConfig()
      requires bundle.Some?
      modifies this`config
      ensures config == Some(Join(bundle.value, RuncConfName))
      ensures config.Some? && BaseName(config.value) == RuncConfName
    {
      config := Some(Join(bundle.value, RuncConfName));
      BaseNameOfJoin(bundle.value, RuncConfName);
    }

    /** The process the engine treats as the root task: the container identifier itself. */
    function RootTaskPid(): (pid: string)
      reads this
      requires Valid()
      ensures pid == ctid && ValidCtid(pid)
    {
      ctid
    }

    /** runc containers are never pre-dumped. */
    function CanPreDump(): (r: bool)
      ensures !r
    {
      false
    }

    /** The dump never needs a page server. */
    function DumpNeedPageServer(): (r: bool)
      ensures !r
    {
      false
    }

    /** The checkpoint/restore request is passed on untouched. */
    method AdjustCriuReq<Req>(req: Req) returns (adjusted: Req)
      ensures adjusted == req
    {
      adjusted := req;
    }

    /**
     * Writes the bundle into bundle.txt under `path` and lists the meta
     * images. The file is opened, and so truncated, before the bundle is
     * read, so without a bundle it is left empty and the call fails.
     */
    method GetMetaImages(path: string, fs: FileSystem) returns (fs': FileSystem, r: Result<seq<(string, string)>, Error>)
      ensures bundle.Some? ==> fs' == WriteBundleFile(fs, path, bundle.value) && r == Success(MetaImages(path))
      ensures bundle.Some? ==> ReadBundleFile(fs', path) == bundle
      ensures bundle.None? ==> fs' == WriteBundleFile(fs, path, "") && r == Failure(BundleNotSet)
    {
      match bundle
      case None =>
        fs' := WriteBundleFile(fs, path, "");
        r := Failure(BundleNotSet);
      case Some(b) =>
        fs' := WriteBundleFile(fs, path, b);
        r := Success(MetaImages(path));
    }

    /** Destination side: takes the bundle from bundle.txt under `dir`, and changes nothing else. */
    method PutMetaImages(dir: string, fs: FileSystem) returns (r: Outcome<Error>)
      requires Valid()
      modifies this`bundle
      ensures Valid()
      ensures r.Pass? <==> Join(dir, BundleImage) in fs
      ensures r.Pass? ==> bundle == ReadBundleFile(fs, dir)
      ensures r.Fail? ==> r == Fail(BundleFileMissing(Join(dir, BundleImage))) && bundle == old(bundle)
    {
      match ReadBundleFile(fs, dir)
      case None =>
        r := Fail(BundleFileMissing(Join(dir, BundleImage)));
      case Some(b) =>
        bundle := Some(b);
        r := Pass;
    }

    /**
     * Checkpoints the container into `imageDir`: the argv issued, and the
     * outcome given the exit code `ret` runc returned for it.
     */
    method FinalDump(imageDir: string, ret: int) returns (argv: seq<string>, r: Outcome<Error>)
      ensures argv == CheckpointArgv(imageDir, ctid)
      ensures r.Fail? <==> ret != 0
      ensures r.Fail? ==> r.error == CheckpointFailed
    {
      argv := CheckpointArgv(imageDir, ctid);
      r := ExitStatus(ret, CheckpointFailed);
    }

    /**
     * Restores the container from `imageDir` and the current bundle: the argv
     * issued, if any, and the outcome given the exit code `ret`. Without a
     * bundle nothing is run.
     */
    method FinalRestore(imageDir: string, ret: int) returns (argv: Option<seq<string>>, r: Outcome<Error>)
      ensures bundle.None? ==> argv == None && r == Fail(BundleNotSet)
      ensures bundle.Some? ==>
                && argv == Some(RestoreArgv(bundle.value, imageDir, ctid))
                && (r.Fail? <==> ret != 0)
                && (r.Fail? ==> r.error == RestoreFailed)
    {
      match bundle
      case None =>
        argv, r := None, Fail(BundleNotSet);
      case Some(b) =>
        argv := Some(RestoreArgv(b, imageDir, ctid));
        r := ExitStatus(ret, RestoreFailed);
    }
  }
}
