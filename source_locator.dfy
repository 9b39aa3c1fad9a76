/** How the engine turns its source argument into the locator it hands to
    the transport process (`build_srt_url`): an existing local path is
    resolved to absolute form, a locator that already names a transport is
    passed through, and anything else is taken to be a bare host:port and
    wrapped in an SRT caller URL with fixed low-latency options. */
module SourceLocator {
  import opened Text

  /** Default vendor endpoint when no source argument is given. */
  const VENDOR_SRT: string := "203.130.9.34:7001"
  const SRT_OPTIONS: string := "?mode=caller&transtype=live&latency=1000&peerlatency=1000"

  /** The local file system as the locator check sees it: the working
      directory and the set of absolute paths that exist. */
  datatype LocalFs = LocalFs(cwd: string, existing: set<string>)

  predicate Absolute(p: string) {
    StartsWith(p, "/")
  }

  /** `Path(p).resolve()`: a relative path is taken against the working
      directory, and the empty path names the working directory itself. */
  function Resolve(fs: LocalFs, p: string): (r: string)
    ensures Absolute(fs.cwd) ==> Absolute(r)
    ensures Absolute(p) ==> r == p
  {
    if p == "" then fs.cwd
    else if Absolute(p) then p
    else fs.cwd + "/" + p
  }

  /** `Path(p).exists()`. */
  predicate Exists(fs: LocalFs, p: string) {
    Resolve(fs, p) in fs.existing
  }

  /** The locator already names a transport. */
  predicate TransportScheme(v: string) {
    StartsWith(v, "srt://") || StartsWith(v, "http") || StartsWith(v, "udp")
  }

  function WrapSrt(vendor: string): (url: string)
    ensures TransportScheme(url)
    ensures |url| > 6 + |vendor| && url[6..6 + |vendor|] == vendor
  {
    "srt://" + vendor + SRT_OPTIONS
  }

  function BuildSrtUrl(fs: LocalFs, vendor: string): (url: string)
    // the local-path test comes first, even for a transport-looking name
    ensures Exists(fs, vendor) ==> url == Resolve(fs, vendor) && url in fs.existing
    ensures !Exists(fs, vendor) && TransportScheme(vendor) ==> url == vendor
    ensures !Exists(fs, vendor) && !TransportScheme(vendor) ==> url == WrapSrt(vendor)
    // every result is an existing local file or a transport locator
    ensures url in fs.existing || TransportScheme(url)
  {
    if Exists(fs, vendor) then Resolve(fs, vendor)
    else if TransportScheme(vendor) then vendor
    else WrapSrt(vendor)
  }

  /** Building a locator from a built locator changes nothing, provided the
      working directory is absolute and the wrapped URL (when wrapping
      happened) is not itself the name of a local file. */
  lemma {:induction false} BuildSrtUrlIdempotent(fs: LocalFs, vendor: string)
    requires Absolute(fs.cwd)
    requires !Exists(fs, WrapSrt(vendor))
    ensures BuildSrtUrl(fs, BuildSrtUrl(fs, vendor)) == BuildSrtUrl(fs, vendor)
  {
    var url := BuildSrtUrl(fs, vendor);
    if Exists(fs, vendor) {
      assert Absolute(url);
      assert Resolve(fs, url) == url;
    } else if TransportScheme(vendor) {
      assert url == vendor;
    } else {
      assert url == WrapSrt(vendor);
    }
  }

  /** The default vendor endpoint is a bare host:port, so unless a local file
      has that name it is wrapped. */
  lemma DefaultVendorIsWrapped(fs: LocalFs)
    requires !Exists(fs, VENDOR_SRT)
    ensures BuildSrtUrl(fs, VENDOR_SRT) == WrapSrt(VENDOR_SRT)
  {
    assert !StartsWith(VENDOR_SRT, "srt://") && !StartsWith(VENDOR_SRT, "http") && !StartsWith(VENDOR_SRT, "udp") by {
      assert VENDOR_SRT[0] == '2';
    }
  }
}
