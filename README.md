# runc hauler, modelled in Dafny

P.Haul migrates a running container from one host to another by
checkpointing it with CRIU on the source and restoring it on the destination.
The migration engine drives one *hauler* per container; the runc hauler
(`phaul/p_haul_runc.py`, class `p_haul_type`) is the one for runc containers.
It:

- validates the container identifier when it is built;
- reads the container's bundle and rootfs from `runc state` (`init_src`) and
  derives the path of its `config.json`;
- writes the bundle path into a `bundle.txt` meta image next to the checkpoint
  and lists the meta images for transport (`get_meta_images`). On the
  destination it reads the bundle back (`put_meta_images`);
- issues `runc checkpoint` and `runc restore` and treats a non-zero exit code
  as failure (`final_dump`, `final_restore`);
- answers the engine's capability queries.

The model injects the hauler's I/O as plain values:

- the parsed output of `runc state` is a `StateQuery`: either a failed run or
  a map of the document's fields;
- the exit code of each runc run is an `int` argument;
- files are a `FileSystem`, a map from path to contents, passed in and
  returned.

The command lines the hauler would run are returned as argument vectors.

Files:

- `wrappers.dfy`: `Option`, `Outcome` and `Result`.
- `paths.dfy`: `os.path.join` for two components, and `basename`. Basename is
  used only to state what the meta-image names mean.
- `container_ids.dfy`: the identifier check, both as written and as intended
  (see Findings).
- `runc_hauler.dfy`: the argv builders and their decoder, the meta images, a
  model of the transport layer, and the `RuncHauler` class. The class has
  `ctid`, `containerState`, `bundle`, `rootfs` and `config`, which mirror
  `_ctid`, `_container_state`, `_runc_bundle`, `_ct_rootfs` and `_ct_config`.

Facts about this adapter that the model keeps:

- the checkpoint argv names the container identifier. The `pid` argument of
  `final_dump` is only logged (phaul/p_haul_runc.py:89);
- neither argv passes `--tcp-established`;
- `migration_complete` is `pass`: it kills and deletes nothing;
- `adjust_criu_req` is `pass`: it edits no request field;
- this adapter has no mount, cgroup, network-lock or request-editing code;
- every error is a Python exception raised by the code. `Error` has one
  constructor per raise site (or per failing `open` or attribute read).

## Model

| member | source | states |
|---|---|---|
| `ContainerIds.ValidCtid` | phaul/p_haul_runc.py:22-24 | The identifiers a hauler accepts: 1 to 1024 characters of `[A-Za-z0-9_-]`. An accepted identifier holds no newline, '/' or '='. |
| `ContainerIds.TrailingNewlineAccepted` | phaul/p_haul_runc.py:23-24 | The check as written (`re.match("^[\w-]+$")` plus the length bound) accepts `"a\n"`, which the intended check rejects. |
| `ContainerIds.ValidCtidIsAcceptedWithoutNewline` | phaul/p_haul_runc.py:23-24 | The intended check accepts exactly the strings the written check accepts that do not end in a newline, in both directions. |
| `Paths.Join` | phaul/p_haul_runc.py:55 | `os.path.join(a, b)`: an absolute `b` replaces `a`. Otherwise the result starts with `a` and ends with `b` without overlap, with exactly one '/' inserted between them when `a` is non-empty and does not end in '/', and none otherwise; so `b` always follows a '/' or the start. |
| `Paths.BaseNameOfJoin` | phaul/p_haul_runc.py:81-82 | For every name joined onto a directory, the last path component of the result is that name. |
| `Paths.JoinInjective` | phaul/p_haul_runc.py:77-80 | `bundle.txt` and `descriptors.json` under the same directory are different paths, whatever the directory. |
| `RuncHaul.CheckpointArgv` | phaul/p_haul_runc.py:90-98 | The argv is `[runc, "checkpoint", "--image-path=" + dir, ctid]`. It decodes back to exactly that image directory and container. |
| `RuncHaul.RestoreArgv` | phaul/p_haul_runc.py:113-123 | The argv is `[runc, "restore", "-d", "--bundle=" + bundle, "--image-path=" + dir, ctid]`. It decodes back to exactly that bundle, image directory and container. |
| `RuncHaul.ExitStatus` | phaul/p_haul_runc.py:99-100 | An exit code fails iff it is non-zero, with the given error. |
| `RuncHaul.MetaImages` | phaul/p_haul_runc.py:76-82 | Exactly two pairs, `bundle.txt` first and `descriptors.json` second. Each path is the directory joined with the name, and its basename is the name. The two paths differ. |
| `RuncHaul.BundleSurvivesTransfer` | phaul/p_haul_runc.py:78-86 | The file the source writes to `bundle.txt` is transported under its listed name. Reading `bundle.txt` on the destination then yields the source's bundle, whatever directories the two sides use. |
| `RuncHaul.RuncHauler.New` | phaul/p_haul_runc.py:20-26 | Construction succeeds iff `ValidCtid(ctid)`; otherwise it fails with `InvalidName(ctid)`. A new hauler has its identifier and no state, bundle, rootfs or config. |
| `RuncHaul.RuncHauler.InitSrc` | phaul/p_haul_runc.py:28-43 | Succeeds iff `runc state` ran and its document has `bundlePath` and `rootfsPath`. A failed run changes nothing. A document is always stored. The bundle is taken whenever `bundlePath` is present, even if `rootfsPath` then is missing. On success rootfs is `rootfsPath` and config is `join(bundlePath, "config.json")`. |
| `RuncHaul.RuncHauler.LoadCtConfig` | phaul/p_haul_runc.py:54-56 | Config becomes `join(bundle, "config.json")`, whose basename is `config.json`. Only config changes. The method's unused path argument is dropped. |
| `RuncHaul.RuncHauler.RootTaskPid` | phaul/p_haul_runc.py:51-52 | Returns the hauler's validated container identifier unchanged. |
| `RuncHaul.RuncHauler.CanPreDump` | phaul/p_haul_runc.py:127-128 | Always false. |
| `RuncHaul.RuncHauler.DumpNeedPageServer` | phaul/p_haul_runc.py:130-131 | Always false. |
| `RuncHaul.RuncHauler.AdjustCriuReq` | phaul/p_haul_runc.py:48-49 | The request comes back unchanged, and no object is modified. |
| `RuncHaul.RuncHauler.GetMetaImages` | phaul/p_haul_runc.py:76-82 | With a bundle: `bundle.txt` under the path then holds the bundle, no other file is touched, and the result is `MetaImages(path)`. Without one: `bundle.txt` is truncated to empty and the call fails with `BundleNotSet`. |
| `RuncHaul.RuncHauler.PutMetaImages` | phaul/p_haul_runc.py:84-86 | Succeeds iff `bundle.txt` exists under the directory; the bundle then becomes its contents. On failure nothing changes. No field other than the bundle ever changes. |
| `RuncHaul.RuncHauler.FinalDump` | phaul/p_haul_runc.py:88-100 | Issues the checkpoint argv for this hauler's identifier and the image directory. Fails with `CheckpointFailed` iff runc's exit code is non-zero. |
| `RuncHaul.RuncHauler.FinalRestore` | phaul/p_haul_runc.py:111-125 | Without a bundle, runs nothing and fails with `BundleNotSet`. Otherwise issues the restore argv for the current bundle, the image directory and the identifier. Fails with `RestoreFailed` iff the exit code is non-zero. |

## Findings

| source | as written | input that shows it | evidently intended | confidence | as-written member | corrected member |
|---|---|---|---|---|---|---|
| phaul/p_haul_runc.py:23 | `re.match("^[\w-]+$", ctid)` accepts a single trailing newline, because Python's `$` also matches just before a newline that ends the string | `"a\n"` passes the check and would be passed to runc as the container identifier | identifiers of 1 to 1024 characters of `[A-Za-z0-9_-]` only (`\Z` or `re.fullmatch`) | high: it follows from Python's documented `$` semantics; not executed | `ContainerIds.TrailingNewlineAccepted` | `ContainerIds.ValidCtid` |

`RuncHauler.New` and the class invariant use the corrected `ValidCtid`.
`ValidCtidIsAcceptedWithoutNewline` states precisely how it differs from the
check as written.

## Left out

- Running processes. The `runc state`, `runc checkpoint` and `runc restore`
  calls are replaced by their injected outcome: a `StateQuery` or an exit
  code. Their log files under `/tmp` are not modelled.
- JSON decoding of the `runc state` output. The document is given already
  parsed, with string values. A document that is not valid JSON, or not an
  object, raises an uncaught error in the source; that path is not modelled.
- Real file I/O. Files are a map from path to contents. Directories,
  permissions and failed writes are not modelled. Nor is Python 2's encoding
  of a non-ASCII bundle path when it is written.
- `descriptors.json` is listed by `get_meta_images`, but this file never
  writes it. The model only copies it if it already exists.
- The transport of meta images between hosts belongs to the migration engine.
  `Transfer` is a model of its effect, not of its code.
- `get_fs` returns an object of the `fs_haul_subtree` module, which is not
  part of this model.
- The hooks `init_dst`, `set_options`, `umount`, `start`, `stop`,
  `migration_complete`, `migration_fail`, `target_cleanup` and
  `get_fs_receiver` do nothing: they return `None` and change no state.
- Logging.
- `\w` is the ASCII class `[A-Za-z0-9_]`, as for a Python 2 pattern without the
  UNICODE or LOCALE flags.
- An identifier may begin with `-`; runc would then read it as an option.
  The check admits such identifiers and so does the model.
- No migration-phase state machine is modelled: the adapter keeps no phase,
  and the order of calls is the migration engine's business.
