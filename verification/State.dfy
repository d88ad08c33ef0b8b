// The on-server state record and the update table.
module State {
  import opened Wrappers
  import opened Text
  import opened Paths

  datatype ImagePin = ImagePin(service: string, repo: string, tag: string, digest: string, pinnedAt: DateTime)

  datatype InstallMetadata = InstallMetadata(bootstrappedAt: DateTime, version: string, lastUpdatedAt: Option<DateTime>)

  datatype RelayState = RelayState(install: InstallMetadata, images: seq<ImagePin>)

  function NewBootstrap(at: DateTime, version: string, images: seq<ImagePin>): RelayState {
    RelayState(InstallMetadata(at, version, None), images)
  }

  function ApplyUpdate(s: RelayState, images: seq<ImagePin>, at: DateTime): RelayState {
    RelayState(s.install.(lastUpdatedAt := Some(at)), images)
  }

  datatype ImageUpdate = ImageUpdate(
    service: string, repo: string, currentTag: string, currentDigest: string, latestTag: string, latestDigest: string)

  predicate UpdateAvailable(u: ImageUpdate) {
    u.currentDigest != u.latestDigest
  }

  predicate AnyUpdate(us: seq<ImageUpdate>) {
    exists u :: u in us && UpdateAvailable(u)
  }

  /** The TOML codec, seen from outside. */
  datatype Codec = Codec(encode: RelayState -> Bytes, decode: Bytes -> Option<RelayState>)

  ghost predicate IsFaithful(c: Codec) {
    forall s: RelayState :: c.decode(c.encode(s)) == Some(s)
  }
}
