/**
 * Command-line arguments of the application and the choice of asset source
 * made from them (apiary/src/app.rs, `ApiaryArgs` and `AssetDaemonArgs`).
 * Paths and socket addresses are kept as text; parsing them belongs to the
 * argument-parsing library.
 */
module AppArgs {
  import opened Wrappers

  type Path = string
  type SocketAddr = string

  /** The compilation target, which decides whether packfiles are available. */
  datatype Target = Native | Wasm32

  /** The daemon's arguments: database directory, listen address, watched directories. */
  datatype AssetDaemonArgs = AssetDaemonArgs(dbDir: Path, address: SocketAddr, assetDirs: seq<Path>)

  /** The renderer's daemon options, with the same three fields. */
  datatype AssetDaemonOpt = AssetDaemonOpt(dbDir: Path, address: SocketAddr, assetDirs: seq<Path>)

  datatype ApiaryArgs = ApiaryArgs(
    packfile: Option<Path>,
    packbuffer: Option<seq<bv8>>,
    externalDaemon: bool,
    daemonArgs: AssetDaemonArgs)

  /** Where the renderer loads assets from: a packfile, or an asset daemon. */
  datatype AssetSource =
    | Packfile(path: Path)
    | Daemon(externalDaemon: bool, daemonOpt: AssetDaemonOpt)

  /** `Into<AssetDaemonOpt>`: the three fields are carried over unchanged. */
  function IntoDaemonOpt(a: AssetDaemonArgs): (o: AssetDaemonOpt)
    ensures o.dbDir == a.dbDir && o.address == a.address && o.assetDirs == a.assetDirs
  {
    AssetDaemonOpt(a.dbDir, a.address, a.assetDirs)
  }

  /** The conversion loses nothing: different arguments give different options. */
  lemma IntoDaemonOptIsInjective(a: AssetDaemonArgs, b: AssetDaemonArgs)
    requires IntoDaemonOpt(a) == IntoDaemonOpt(b)
    ensures a == b
  {
  }

  /**
   * `ApiaryArgs::asset_source`. Outside wasm32 a given packfile wins; in every
   * other case the daemon is chosen with the `external_daemon` flag and the
   * converted daemon arguments. The result is never `None`.
   */
  function AssetSourceOf(args: ApiaryArgs, target: Target): (r: Option<AssetSource>)
    ensures r.Some?
    ensures target == Native && args.packfile.Some? ==> r.value == Packfile(args.packfile.value)
    ensures target == Wasm32 || args.packfile.None? ==>
              r.value.Daemon?
              && r.value.externalDaemon == args.externalDaemon
              && r.value.daemonOpt.dbDir == args.daemonArgs.dbDir
              && r.value.daemonOpt.address == args.daemonArgs.address
              && r.value.daemonOpt.assetDirs == args.daemonArgs.assetDirs
  {
    if target == Native && args.packfile.Some? then
      Some(Packfile(args.packfile.value))
    else
      Some(Daemon(args.externalDaemon, IntoDaemonOpt(args.daemonArgs)))
  }

  /** The in-memory pack buffer plays no part in the choice. */
  lemma AssetSourceIgnoresPackbuffer(args: ApiaryArgs, target: Target, buffer: Option<seq<bv8>>)
    ensures AssetSourceOf(args.(packbuffer := buffer), target) == AssetSourceOf(args, target)
  {
  }
}
