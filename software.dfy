/** The software-install module: the version parsed from a package's file
    name, the reconciliation of the package options, the decision whether
    an install is needed, the install parameters, and the device timeout
    around a local reboot. */
module SoftwareInstall {
  import opened Text
  import opened JunosTypes
  import Session

  // ---------------------------------------------------------------------
  // parse_version_from_filename
  // ---------------------------------------------------------------------

  /** The file-name prefixes of Junos software packages, in the order tried. */
  const PackagePrefixes: seq<string> := [
    "jbundle", "jinstall", "junos-install", "junos-srx",
    "junos-vmhost-install", "junos-vrr", "vmx-bundle", "junos-arm"
  ]

  /** The index of the first '\n' at or after j, or |s|: where a regex `.`
      run starting at j must stop. */
  function RestOfLine(s: string, j: nat): (k: nat)
    requires j <= |s|
    ensures j <= k <= |s|
    ensures forall q :: j <= q < k ==> s[q] != '\n'
    ensures k < |s| ==> s[k] == '\n'
    decreases |s| - j
  {
    if j == |s| || s[j] == '\n' then j else RestOfLine(s, j + 1)
  }

  /** The index of the last digit in s[j..k], if any. */
  function LastDigit(s: string, j: nat, k: nat): (r: Option<nat>)
    requires j <= k <= |s|
    ensures r.Some? ==> j <= r.value < k && IsDigit(s[r.value])
    ensures r.Some? ==> forall q :: r.value < q < k ==> !IsDigit(s[q])
    ensures r.None? ==> forall q :: j <= q < k ==> !IsDigit(s[q])
    decreases k - j
  {
    if k == j then None
    else if IsDigit(s[k - 1]) then Some(k - 1)
    else LastDigit(s, j, k - 1)
  }

  /** `-\d{2}\.` at p. */
  predicate VersionHead(s: string, p: nat) {
    p + 4 < |s| && s[p] == '-' && IsDigit(s[p + 1]) && IsDigit(s[p + 2]) && s[p + 3] == '.'
  }

  /** The pattern `-(\d{2}\..*\d).*` matches at p: the head, then a digit
      later on the same line. */
  predicate VersionAt(s: string, p: nat) {
    VersionHead(s, p) && LastDigit(s, p + 4, RestOfLine(s, p + 4)).Some?
  }

  /** The first position at or after p where the pattern matches, or |s|. */
  function FirstVersionAt(s: string, p: nat): (k: nat)
    requires p <= |s|
    ensures p <= k <= |s|
    ensures k < |s| ==> VersionAt(s, k)
    ensures forall q :: p <= q < k ==> !VersionAt(s, q)
    decreases |s| - p
  {
    if p == |s| then p else if VersionAt(s, p) then p else FirstVersionAt(s, p + 1)
  }

  /** The group of re.search(r"-(\d{2}\..*\d).*", s): from the first match,
      the greedy `.*\d` runs to the last digit before the end of the line. */
  function VersionSearch(s: string): (r: Option<string>)
    ensures r.Some? <==> exists q :: 0 <= q < |s| && VersionAt(s, q)
    ensures r.Some? ==> |r.value| >= 4 && IsDigit(r.value[0]) && IsDigit(r.value[1]) && r.value[2] == '.'
    ensures r.Some? ==> IsDigit(r.value[|r.value| - 1])
    ensures r.Some? ==> forall q :: 0 <= q < |r.value| ==> r.value[q] != '\n'
  {
    var p := FirstVersionAt(s, 0);
    if p == |s| then None
    else
      var e := LastDigit(s, p + 4, RestOfLine(s, p + 4)).value;
      Some(s[p + 1..e + 1])
  }

  /** The result starts right after the first match's '-' and ends at the
      last digit of that line. */
  lemma VersionSearchPosition(s: string)
    requires VersionSearch(s).Some?
    ensures var p := FirstVersionAt(s, 0);
      && p < |s| && s[p] == '-'
      && (forall q :: 0 <= q < p ==> !VersionAt(s, q))
      && p + 1 + |VersionSearch(s).value| <= RestOfLine(s, p + 4)
      && VersionSearch(s).value == s[p + 1..p + 1 + |VersionSearch(s).value|]
      && (forall q :: p + 1 + |VersionSearch(s).value| <= q < RestOfLine(s, p + 4) ==> !IsDigit(s[q]))
  {
  }

  /** The loop over the prefixes with its early return. */
  function ScanPrefixes(prefixes: seq<string>, filename: string): Option<string> {
    if prefixes == [] then None
    else if StartsWith(filename, prefixes[0]) && VersionSearch(filename).Some? then VersionSearch(filename)
    else ScanPrefixes(prefixes[1..], filename)
  }

  function ParseVersionFromFilename(filename: string): Option<string> {
    ScanPrefixes(PackagePrefixes, filename)
  }

  predicate HasPrefixIn(prefixes: seq<string>, filename: string) {
    exists i :: 0 <= i < |prefixes| && StartsWith(filename, prefixes[i])
  }

  lemma {:induction false} ScanPrefixesSearches(prefixes: seq<string>, filename: string)
    ensures ScanPrefixes(prefixes, filename)
      == if HasPrefixIn(prefixes, filename) then VersionSearch(filename) else None
  {
    if prefixes != [] {
      ScanPrefixesSearches(prefixes[1..], filename);
      if HasPrefixIn(prefixes[1..], filename) {
        var i :| 0 <= i < |prefixes[1..]| && StartsWith(filename, prefixes[1..][i]);
        assert StartsWith(filename, prefixes[i + 1]);
      }
      if HasPrefixIn(prefixes, filename) && !StartsWith(filename, prefixes[0]) {
        var i :| 0 <= i < |prefixes| && StartsWith(filename, prefixes[i]);
        assert StartsWith(filename, prefixes[1..][i - 1]);
      }
    }
  }

  /** A version is parsed exactly from a file name with a package prefix, and
      it is then the regex's group whatever the prefix. */
  lemma ParseVersionNeedsPrefix(filename: string)
    ensures ParseVersionFromFilename(filename)
      == if HasPrefixIn(PackagePrefixes, filename) then VersionSearch(filename) else None
  {
    ScanPrefixesSearches(PackagePrefixes, filename);
  }

  /** A position where the pattern matches, with no match between p and it,
      is the first match from p. */
  lemma {:induction false} FirstVersionAtIs(s: string, p: nat, k: nat)
    requires p <= k < |s| && VersionAt(s, k)
    requires forall q :: p <= q < k ==> !VersionAt(s, q)
    ensures FirstVersionAt(s, p) == k
    decreases k - p
  {
    if p < k {
      FirstVersionAtIs(s, p + 1, k);
    }
  }

  // ---------------------------------------------------------------------
  // Package and option reconciliation
  // ---------------------------------------------------------------------

  /** The index just past the last '/' of p, or 0. */
  function AfterLastSlash(p: string): (i: nat)
    ensures i <= |p|
    ensures i > 0 ==> p[i - 1] == '/'
    ensures forall q :: i <= q < |p| ==> p[q] != '/'
  {
    if p == [] then 0 else if p[|p| - 1] == '/' then |p| else AfterLastSlash(p[..|p| - 1])
  }

  predicate AllSlashes(s: string) {
    forall q :: 0 <= q < |s| ==> s[q] == '/'
  }

  /** os.path.split: the tail after the last '/', and the head before it with
      its trailing slashes removed unless it is nothing but slashes. */
  function SplitPath(p: string): (string, string) {
    var i := AfterLastSlash(p);
    var head := p[..i];
    (if head != "" && !AllSlashes(head) then RStripChar(head, '/') else head, p[i..])
  }

  /** The tail is the slash-free end of the path, empty exactly when the path
      is empty or ends in '/'; the head is a prefix of the path. */
  lemma SplitPathShape(p: string)
    ensures var (head, tail) := SplitPath(p);
      && |tail| <= |p| && p == p[..|p| - |tail|] + tail
      && (forall q :: 0 <= q < |tail| ==> tail[q] != '/')
      && (tail == "" <==> p == "" || p[|p| - 1] == '/')
      && StartsWith(p, head)
  {
    var i := AfterLastSlash(p);
    var head := p[..i];
    if head != "" && !AllSlashes(head) {
      assert StartsWith(head, RStripChar(head, '/'));
    }
  }

  /** The package options main pops from the parameters. */
  datatype SwOptions = SwOptions(
    localPackage: Option<string>,
    remotePackage: Option<string>,
    pkgSet: Option<seq<string>>,
    version: Option<string>,
    noCopy: bool,
    cleanfs: bool)

  /** The host's view of paths: urlparse's scheme and path, os.path.abspath,
      and os.path.isfile on the control machine. */
  datatype PathEnv = PathEnv(
    scheme: string -> string,
    urlPath: string -> string,
    abspath: string -> string,
    isFile: string -> bool)

  /** The reconciled package: where it comes from, what it is called on the
      device, and the options that depend on it. */
  datatype Package = Package(
    url: Option<string>,
    remoteDir: Option<string>,
    remoteFilename: Option<string>,
    localPackage: Option<string>,
    localFilename: Option<string>,
    pkgSet: Option<seq<string>>,
    noCopy: bool,
    cleanfs: bool,
    targetVersion: Option<string>)

  datatype SwFailure =
    | NoPackageOption
    | UrlWithLocal(remote: string)
    | UrlWithNoCopy(remote: string)
    | NoLocalFilename(local: string)
    | LocalNotFile(local: string)
    | PkgNotFile(item: string)
    | FilenameMismatch(remoteFilename: string, localFilename: string)

  /** The text fail_json reports. */
  function SwMessage(f: SwFailure): string {
    match f
    case NoPackageOption => "one of the following is required: local_package, remote_package, pkg_set"
    case UrlWithLocal(r) => "There remote_package (" + r + ") is a URL. The local_package option is not allowed."
    case UrlWithNoCopy(r) => "There remote_package (" + r + ") is a URL. The no_copy option is not allowed."
    case NoLocalFilename(l) => "There is no filename component to the local_package (" + l + ")."
    case LocalNotFile(l) => "The local_package (" + l + ") is not a valid file on the local Ansible control machine."
    case PkgNotFile(i) => "The pkg (" + i + ") is not a valid file on the local Ansible control machine."
    case FilenameMismatch(r, l) =>
      "The filename of the remote_package (" + r + ") must be the same as the filename of the local_package (" + l + ")."
  }

  datatype SwStop = SwRefused(failure: SwFailure) | SwCrashed(crash: Crash)

  const DefaultRemoteDir := "/var/tmp"

  /** Where remote_package points: a URL, or a directory and a file name on
      the device. */
  datatype RemoteSource = RemoteSource(url: Option<string>, dir: Option<string>, name: string)

  /** A URL's parse when it has a scheme; otherwise the directory and file
      name on the device; without remote_package, /var/tmp and no name. */
  function RemoteParts(remote: Option<string>, env: PathEnv): RemoteSource {
    match remote
    case None => RemoteSource(None, Some(DefaultRemoteDir), "")
    case Some(r) =>
      if env.scheme(r) == "" then RemoteSource(None, Some(SplitPath(r).0), SplitPath(r).1)
      else RemoteSource(Some(r), None, SplitPath(env.urlPath(r)).1)
  }

  /** The first entry that is not a file on the control machine. */
  function FirstNotFile(items: seq<string>, isFile: string -> bool): (r: Option<nat>)
    ensures r.Some? ==> r.value < |items| && !isFile(items[r.value])
    ensures r.Some? ==> forall j :: 0 <= j < r.value ==> isFile(items[j])
    ensures r.None? ==> forall j :: 0 <= j < |items| ==> isFile(items[j])
  {
    if items == [] then None
    else if !isFile(items[0]) then Some(0)
    else match FirstNotFile(items[1..], isFile)
      case None => None
      case Some(k) => Some(k + 1)
  }

  function AbsPaths(items: seq<string>, abspath: string -> string): (r: seq<string>)
    ensures |r| == |items| && forall j :: 0 <= j < |items| ==> r[j] == abspath(items[j])
  {
    seq(|items|, j requires 0 <= j < |items| => abspath(items[j]))
  }

  const NoneStartswith := "'NoneType' object has no attribute 'startswith'"

  /** Where the package is once its options agree: the URL or the device
      directory, the remote and local file names, the package set and
      no_copy. */
  datatype Located = Located(
    url: Option<string>,
    dir: Option<string>,
    remoteFilename: Option<string>,
    local: Option<string>,
    localName: Option<string>,
    pkgs: Option<seq<string>>,
    noCopy: bool)

  /** The checks of a package that is not fetched from a URL: the local
      package's absolute path and file name, no_copy forced by a remote
      package given alone, the files that will be copied, and the remote
      file name. */
  function LocalLocated(o: SwOptions, env: PathEnv, dir: Option<string>, name: string): Result<Located, SwFailure> {
    var local := if o.localPackage.Some? then Some(env.abspath(o.localPackage.value)) else None;
    var localName := if local.Some? then Some(SplitPath(local.value).1) else None;
    if localName == Some("") then Err(NoLocalFilename(local.value))
    else
      var noCopy := if local.None? && o.remotePackage.Some? then true else o.noCopy;
      if !noCopy && local.Some? && !env.isFile(local.value) then Err(LocalNotFile(local.value))
      else
        var pkgs := if !noCopy && o.pkgSet.Some? then Some(AbsPaths(o.pkgSet.value, env.abspath)) else o.pkgSet;
        var missing := if !noCopy && pkgs.Some? then FirstNotFile(pkgs.value, env.isFile) else None;
        if missing.Some? then Err(PkgNotFile(pkgs.value[missing.value]))
        else
          var remoteFilename := if name == "" then localName else Some(name);
          if localName.Some? && remoteFilename != localName then Err(FilenameMismatch(name, localName.value))
          else Ok(Located(None, dir, remoteFilename, local, localName, pkgs, noCopy))
  }

  /** The option checks up to the file-name comparison. */
  function Locate(o: SwOptions, env: PathEnv): Result<Located, SwFailure> {
    if o.localPackage.None? && o.remotePackage.None? && o.pkgSet.None? then Err(NoPackageOption)
    else
      var src := RemoteParts(o.remotePackage, env);
      if src.url.Some? && o.localPackage.Some? then Err(UrlWithLocal(src.url.value))
      else if src.url.Some? && o.noCopy then Err(UrlWithNoCopy(src.url.value))
      else if src.url.Some? then Ok(Located(src.url, src.dir, Some(src.name), None, None, o.pkgSet, o.noCopy))
      else LocalLocated(o, env, src.dir, src.name)
  }

  /** The target version: the option, else none for a package set, else the
      one parsed from the remote file name, which fails when there is none. */
  function TargetVersion(version: Option<string>, pkgSet: Option<seq<string>>, remoteFilename: Option<string>): Result<Option<string>, Crash> {
    if version.Some? || pkgSet.Some? then Ok(version)
    else if remoteFilename.None? then Err(AttributeError(NoneStartswith))
    else Ok(ParseVersionFromFilename(remoteFilename.value))
  }

  /** main's handling of local_package, remote_package, pkg_set, no_copy,
      cleanfs and version before the facts are read. */
  function Reconciled(o: SwOptions, env: PathEnv): Result<Package, SwStop> {
    match Locate(o, env)
    case Err(f) => Err(SwRefused(f))
    case Ok(l) =>
      match TargetVersion(o.version, l.pkgs, l.remoteFilename)
      case Err(c) => Err(SwCrashed(c))
      case Ok(t) => Ok(Package(l.url, l.dir, l.remoteFilename, l.local, l.localName, l.pkgs, l.noCopy, o.cleanfs && !l.noCopy, t))
  }

  /** The file checks and names of a package that is not a URL. */
  method CheckLocal(o: SwOptions, env: PathEnv, dir: Option<string>, name: string) returns (r: Result<Located, SwFailure>)
    ensures r == LocalLocated(o, env, dir, name)
  {
    var localPackage := o.localPackage;
    var pkgSet := o.pkgSet;
    var noCopy := o.noCopy;
    var localFilename: Option<string> := None;
    if localPackage.Some? {
      localPackage := Some(env.abspath(localPackage.value));
      localFilename := Some(SplitPath(localPackage.value).1);
      if localFilename == Some("") {
        return Err(NoLocalFilename(localPackage.value));
      }
    } else if o.remotePackage.Some? {
      noCopy := true;
    }
    if !noCopy {
      if localPackage.Some? && !env.isFile(localPackage.value) {
        return Err(LocalNotFile(localPackage.value));
      } else if pkgSet.Some? {
        var items := AbsPaths(pkgSet.value, env.abspath);
        pkgSet := Some(items);
        var k := 0;
        while k < |items|
          invariant 0 <= k <= |items|
          invariant forall j :: 0 <= j < k ==> env.isFile(items[j])
        {
          if !env.isFile(items[k]) {
            return Err(PkgNotFile(items[k]));
          }
          k := k + 1;
        }
      }
    }
    var remoteFilename := if name == "" then localFilename else Some(name);
    if localFilename.Some? && remoteFilename != localFilename {
      return Err(FilenameMismatch(name, localFilename.value));
    }
    return Ok(Located(None, dir, remoteFilename, localPackage, localFilename, pkgSet, noCopy));
  }

  method Reconcile(o: SwOptions, env: PathEnv) returns (r: Result<Package, SwStop>)
    ensures r == Reconciled(o, env)
  {
    if o.localPackage.None? && o.remotePackage.None? && o.pkgSet.None? {
      return Err(SwRefused(NoPackageOption));
    }
    var url: Option<string> := None;
    var remoteDir: Option<string> := None;
    var remoteFilename: string;
    if o.remotePackage.Some? {
      var remote := o.remotePackage.value;
      if env.scheme(remote) == "" {
        remoteDir, remoteFilename := Some(SplitPath(remote).0), SplitPath(remote).1;
      } else {
        url := Some(remote);
        remoteFilename := SplitPath(env.urlPath(remote)).1;
      }
    } else {
      remoteDir := Some(DefaultRemoteDir);
      remoteFilename := "";
    }
    assert RemoteParts(o.remotePackage, env) == RemoteSource(url, remoteDir, remoteFilename);
    if url.Some? && o.localPackage.Some? {
      return Err(SwRefused(UrlWithLocal(url.value)));
    }
    if url.Some? && o.noCopy {
      return Err(SwRefused(UrlWithNoCopy(url.value)));
    }
    var l := Located(url, remoteDir, Some(remoteFilename), None, None, o.pkgSet, o.noCopy);
    if url.None? {
      var checked := CheckLocal(o, env, remoteDir, remoteFilename);
      if checked.Err? {
        return Err(SwRefused(checked.error));
      }
      l := checked.value;
    }
    assert Locate(o, env) == Ok(l);
    var cleanfs := o.cleanfs;
    if l.noCopy {
      cleanfs := false;
    }
    var targetVersion := o.version;
    if targetVersion.None? && l.pkgs.None? {
      if l.remoteFilename.None? {
        return Err(SwCrashed(AttributeError(NoneStartswith)));
      }
      targetVersion := ParseVersionFromFilename(l.remoteFilename.value);
    }
    return Ok(Package(l.url, l.dir, l.remoteFilename, l.local, l.localName, l.pkgs, l.noCopy, cleanfs, targetVersion));
  }

  /** A remote_package with a URL scheme refuses a local_package, and then
      no_copy. */
  lemma UrlRefusals(o: SwOptions, env: PathEnv)
    requires o.remotePackage.Some? && env.scheme(o.remotePackage.value) != ""
    ensures o.localPackage.Some? ==> Reconciled(o, env) == Err(SwRefused(UrlWithLocal(o.remotePackage.value)))
    ensures o.localPackage.None? && o.noCopy ==> Reconciled(o, env) == Err(SwRefused(UrlWithNoCopy(o.remotePackage.value)))
    ensures o.localPackage.None? && !o.noCopy ==> Reconciled(o, env).Ok? || Reconciled(o, env).error.SwCrashed?
  {
  }

  lemma LocalLocatedOptions(o: SwOptions, env: PathEnv, dir: Option<string>, name: string)
    requires LocalLocated(o, env, dir, name).Ok?
    ensures var l := LocalLocated(o, env, dir, name).value;
      && l.url.None? && l.dir == dir
      && (l.noCopy <==> o.noCopy || (o.localPackage.None? && o.remotePackage.Some?))
  {
  }

  /** A reconciled package: no_copy is set by the option or by a device path
      given without a local package (a URL refuses no_copy), and cleanfs is off whenever no_copy
      is on; the remote directory is /var/tmp without remote_package, the
      package's own directory for a device path, and none for a URL. */
  lemma ReconciledOptions(o: SwOptions, env: PathEnv)
    requires Reconciled(o, env).Ok?
    ensures var pkg := Reconciled(o, env).value;
      && (pkg.noCopy <==> o.noCopy || (pkg.url.None? && o.localPackage.None? && o.remotePackage.Some?))
      && pkg.cleanfs == (o.cleanfs && !pkg.noCopy)
      && (pkg.url.Some? <==> o.remotePackage.Some? && env.scheme(o.remotePackage.value) != "")
      && pkg.remoteDir == (if o.remotePackage.None? then Some(DefaultRemoteDir)
                           else if pkg.url.Some? then None
                           else Some(SplitPath(o.remotePackage.value).0))
  {
    var src := RemoteParts(o.remotePackage, env);
    if src.url.None? {
      LocalLocatedOptions(o, env, src.dir, src.name);
    }
  }

  /** Without a URL the remote file name is the local one when the remote
      path names no file, and must otherwise equal it; a copied package's
      files exist on the control machine. */
  lemma ReconciledFiles(o: SwOptions, env: PathEnv)
    requires Reconciled(o, env).Ok? && Reconciled(o, env).value.url.None?
    ensures var pkg := Reconciled(o, env).value;
      var name := RemoteParts(o.remotePackage, env).name;
      && (pkg.localFilename.Some? <==> o.localPackage.Some?)
      && (pkg.localFilename.Some? ==> pkg.remoteFilename == pkg.localFilename && pkg.localFilename != Some(""))
      && (name != "" ==> pkg.remoteFilename == Some(name))
      && (name == "" ==> pkg.remoteFilename == pkg.localFilename)
      && (!pkg.noCopy && pkg.localPackage.Some? ==> env.isFile(pkg.localPackage.value))
      && (!pkg.noCopy && pkg.pkgSet.Some? ==> forall j :: 0 <= j < |pkg.pkgSet.value| ==> env.isFile(pkg.pkgSet.value[j]))
  {
  }

  /** The target version is the option when given, none for a package set,
      and otherwise the one parsed from the remote file name. */
  lemma ReconciledTarget(o: SwOptions, env: PathEnv)
    requires Reconciled(o, env).Ok?
    ensures var pkg := Reconciled(o, env).value;
      && (o.version.Some? ==> pkg.targetVersion == o.version)
      && (o.version.None? && pkg.pkgSet.Some? ==> pkg.targetVersion.None?)
      && (o.version.None? && pkg.pkgSet.None? ==>
            pkg.remoteFilename.Some? && pkg.targetVersion == ParseVersionFromFilename(pkg.remoteFilename.value))
  {
  }

  /** A device path ending in '/' with neither a local package nor a package
      set nor a version leaves no file name to parse, and main crashes. */
  lemma DirectoryOnlyCrashes(o: SwOptions, env: PathEnv)
    requires o.localPackage.None? && o.pkgSet.None? && o.version.None?
    requires o.remotePackage.Some? && env.scheme(o.remotePackage.value) == ""
    requires o.remotePackage.value != "" && o.remotePackage.value[|o.remotePackage.value| - 1] == '/'
    ensures Reconciled(o, env) == Err(SwCrashed(AttributeError(NoneStartswith)))
  {
    SplitPathShape(o.remotePackage.value);
  }

  // ---------------------------------------------------------------------
  // Whether an install is needed
  // ---------------------------------------------------------------------

  /** A routing engine's entry in the vmhost_info fact. */
  datatype VmhostInfo = VmhostInfo(currentRootSet: string, versionSetB: string, versionSetP: string)

  /** The device facts the decision reads: the version, the version text of
      each routing engine, and the VM host details. */
  datatype Facts = Facts(version: string, junosInfo: Assoc<string>, vmhost: bool, vmhostInfo: Assoc<VmhostInfo>)

  /** The version a routing engine runs: on a VM host listed in vmhost_info,
      the one parsed from version set b when the current root set is "p" and
      from set p otherwise; elsewhere the given version text. */
  function VersionOnRe(f: Facts, re: string, otherwise: string): Option<string> {
    var info := Lookup(f.vmhostInfo, re);
    if f.vmhost && info.Some? then
      ParseVersionFromFilename(if info.value.currentRootSet == "p" then info.value.versionSetB else info.value.versionSetP)
    else Some(otherwise)
  }

  /** The "same version" line as the source formats it: the version is put
      where the routing engine's name belongs, and the name after it. */
  function SameLineAsWritten(current: string, re: string, target: string): string {
    "Current version on " + current + ": " + re + " same as Targeted version: " + target + ".\n"
  }

  /** The "same version" line naming the routing engine, then its version. */
  function SameLine(re: string, target: string): string {
    "Current version on " + re + ": " + target + " same as Targeted version: " + target + ".\n"
  }

  /** The line as written puts the version where the routing engine's name
      belongs. */
  lemma SameLineAsWrittenNamesVersion(current: string, re: string, target: string)
    ensures StartsWith(SameLineAsWritten(current, re, target), "Current version on " + current + ": " + re)
  {
    var l := SameLineAsWritten(current, re, target);
    var h := "Current version on " + current + ": " + re;
    assert l == h + (" same as Targeted version: " + target + ".\n");
    assert l[..|h|] == h;
  }

  /** For routing engine re0 already at 20.1R1.5 the line as written does not
      begin "Current version on re0": it begins "Current version on 20.1R1.5". */
  lemma SameLineAsWrittenExample()
    ensures !StartsWith(SameLineAsWritten("20.1R1.5", "re0", "20.1R1.5"), "Current version on re0")
  {
    SameLineAsWrittenNamesVersion("20.1R1.5", "re0", "20.1R1.5");
    var h := "Current version on " + "20.1R1.5" + ": " + "re0";
    assert h[19] == '2';
  }

  /** The corrected line names the routing engine first, then the version it
      runs, and ends the line. */
  lemma SameLineNamesRe(re: string, target: string)
    ensures StartsWith(SameLine(re, target), "Current version on " + re + ": " + target)
    ensures SameLine(re, target) != "" && SameLine(re, target)[|SameLine(re, target)| - 1] == '\n'
  {
    var l := SameLine(re, target);
    var h := "Current version on " + re + ": " + target;
    assert l == h + (" same as Targeted version: " + target + ".\n");
    assert l[..|h|] == h;
  }

  /** The messages the all-RE loop appends: one line per routing engine
      whose version equals the target, in junos_info order, formatted as
      written (the version, which equals the target, before the name). */
  function SameLines(entries: Assoc<string>, f: Facts, target: string): string
    decreases |entries|
  {
    if entries == [] then ""
    else
      var last := entries[|entries| - 1];
      SameLines(entries[..|entries| - 1], f, target)
        + (if VersionOnRe(f, last.0, last.1) == Some(target) then SameLineAsWritten(target, last.0, target) else "")
  }

  /** Some routing engine in entries runs another version than the target. */
  predicate SomeReDiffers(entries: Assoc<string>, f: Facts, target: string) {
    exists i :: 0 <= i < |entries| && VersionOnRe(f, entries[i].0, entries[i].1) != Some(target)
  }

  /** No line is appended exactly when every routing engine differs. */
  lemma {:induction false} SameLinesEmpty(entries: Assoc<string>, f: Facts, target: string)
    ensures SameLines(entries, f, target) == ""
      <==> forall i :: 0 <= i < |entries| ==> VersionOnRe(f, entries[i].0, entries[i].1) != Some(target)
    decreases |entries|
  {
    if entries != [] {
      var n := |entries| - 1;
      var init := entries[..n];
      SameLinesEmpty(init, f, target);
      SameLineAsWrittenNamesVersion(target, entries[n].0, target);
      assert forall i :: 0 <= i < n ==> init[i] == entries[i];
    }
  }

  /** One more routing engine: its line is appended when it runs the target. */
  lemma SameLinesStep(entries: Assoc<string>, i: nat, f: Facts, target: string)
    requires i < |entries|
    ensures SameLines(entries[..i + 1], f, target)
      == SameLines(entries[..i], f, target)
         + (if VersionOnRe(f, entries[i].0, entries[i].1) == Some(target) then SameLineAsWritten(target, entries[i].0, target) else "")
  {
    var e := entries[..i + 1];
    assert |e| - 1 == i && e[i] == entries[i];
    assert e[..i] == entries[..i];
  }

  /** One more routing engine: it is counted when it does not run the target. */
  lemma SomeReDiffersStep(entries: Assoc<string>, i: nat, f: Facts, target: string)
    requires i < |entries|
    ensures SomeReDiffers(entries[..i + 1], f, target)
      <==> SomeReDiffers(entries[..i], f, target) || VersionOnRe(f, entries[i].0, entries[i].1) != Some(target)
  {
    var e := entries[..i + 1];
    assert forall j :: 0 <= j < i ==> e[j] == entries[..i][j];
    assert e[i] == entries[i];
  }

  /** The loop over junos_info when all_re is set. */
  method ScanRoutingEngines(f: Facts, target: string) returns (changed: bool, msg: string)
    ensures changed <==> SomeReDiffers(f.junosInfo, f, target)
    ensures msg == SameLines(f.junosInfo, f, target)
  {
    changed, msg := false, "";
    var i := 0;
    while i < |f.junosInfo|
      invariant 0 <= i <= |f.junosInfo|
      invariant msg == SameLines(f.junosInfo[..i], f, target)
      invariant changed <==> SomeReDiffers(f.junosInfo[..i], f, target)
    {
      var re := f.junosInfo[i].0;
      var current := VersionOnRe(f, re, f.junosInfo[i].1);
      SameLinesStep(f.junosInfo, i, f, target);
      SomeReDiffersStep(f.junosInfo, i, f, target);
      if current != Some(target) {
        changed := true;
      } else {
        msg := msg + SameLineAsWritten(target, re, target);
      }
      i := i + 1;
    }
    assert f.junosInfo[..i] == f.junosInfo;
  }

  /** The decision of lines 639-707: without a target version an install is
      always attempted; with all_re it is needed when some routing engine
      differs, otherwise when the one the session is on differs. */
  method DecideChanged(target: Option<string>, allRe: bool, f: Facts, reName: string) returns (changed: bool, msg: string)
    ensures changed <==> (target.None?
                          || (allRe && SomeReDiffers(f.junosInfo, f, target.value))
                          || (!allRe && VersionOnRe(f, reName, f.version) != Some(target.value)))
    ensures msg == if target.None? then ""
                   else if allRe then SameLines(f.junosInfo, f, target.value)
                   else if changed then ""
                   else SameLineAsWritten(target.value, reName, target.value)
  {
    if target.None? {
      return true, "";
    }
    var t := target.value;
    if allRe {
      changed, msg := ScanRoutingEngines(f, t);
    } else {
      changed, msg := false, "";
      var current := VersionOnRe(f, reName, f.version);
      if current != Some(t) {
        changed := true;
      } else {
        msg := msg + SameLineAsWritten(t, reName, t);
      }
    }
  }

  // ---------------------------------------------------------------------
  // install_params
  // ---------------------------------------------------------------------

  /** A value passed to the install call: a Python value, or the progress
      callback the module defines. */
  datatype Param = Value(v: PyVal) | ProgressCallback

  /** The module's option names in the order of its argument spec. */
  const OptionKeys: seq<string> := [
    "local_package", "remote_package", "pkg_set", "version", "no_copy", "reboot",
    "reboot_pause", "issu", "nssu", "force_host", "validate", "cleanfs", "all_re",
    "member_id", "vmhost", "checksum", "checksum_algorithm", "checksum_timeout",
    "cleanfs_timeout", "install_timeout", "kwargs"
  ]

  /** The options main pops from the parameters before the install. */
  const PoppedKeys: set<string> := {
    "local_package", "remote_package", "pkg_set", "version", "no_copy", "reboot",
    "reboot_pause", "install_timeout", "cleanfs", "all_re", "member_id", "kwargs"
  }

  /** The popped options the install call uses. */
  datatype InstallOptions = InstallOptions(installTimeout: int, allRe: bool, memberId: PyVal, kwargs: Option<map<string, PyVal>>)

  function StrList(items: seq<string>): (r: PyVal)
    ensures r.PyList? && |r.items| == |items|
  {
    PyList(seq(|items|, j requires 0 <= j < |items| => PyStr(items[j])))
  }

  /** Where the package comes from, most specific first, and the remote
      directory when it is known. */
  function PackageParams(pkg: Package): map<string, Param> {
    var source :=
      if pkg.url.Some? then map[]["package" := Value(PyStr(pkg.url.value))]
      else if pkg.localPackage.Some? then map[]["package" := Value(PyStr(pkg.localPackage.value))]
      else if pkg.pkgSet.Some? then map[]["pkg_set" := Value(StrList(pkg.pkgSet.value))]
      else map[]["package" := Value(if pkg.remoteFilename.Some? then PyStr(pkg.remoteFilename.value) else PyNone)];
    if pkg.remoteDir.Some? then source["remote_path" := Value(PyStr(pkg.remoteDir.value))] else source
  }

  /** The parameters set before the remaining options are copied. */
  function BaseParams(pkg: Package, io: InstallOptions, conn: ConnType): map<string, Param> {
    PackageParams(pkg)
      ["progress" := if conn == Local then ProgressCallback else Value(PyBool(true))]
      ["cleanfs" := Value(PyBool(pkg.cleanfs))]
      ["no_copy" := Value(PyBool(pkg.noCopy))]
      ["timeout" := Value(PyInt(io.installTimeout))]
      ["all_re" := Value(PyBool(io.allRe))]
      ["member_id" := Value(io.memberId)]
  }

  /** The loop over the option names copying every value that is not None. */
  function CopyOptions(acc: map<string, Param>, keys: seq<string>, params: map<string, PyVal>): map<string, Param>
    decreases |keys|
  {
    if keys == [] then acc
    else
      var k := keys[0];
      CopyOptions(if k in params && params[k] != PyNone then acc[k := Value(params[k])] else acc, keys[1..], params)
  }

  predicate Copied(k: string, keys: seq<string>, params: map<string, PyVal>) {
    k in keys && k in params && params[k] != PyNone
  }

  lemma {:induction false} CopyOptionsLookup(acc: map<string, Param>, keys: seq<string>, params: map<string, PyVal>, k: string)
    ensures k in CopyOptions(acc, keys, params) <==> k in acc || Copied(k, keys, params)
    ensures k in CopyOptions(acc, keys, params) ==>
      CopyOptions(acc, keys, params)[k] == if Copied(k, keys, params) then Value(params[k]) else acc[k]
    decreases |keys|
  {
    if keys != [] {
      var k0 := keys[0];
      var next := if k0 in params && params[k0] != PyNone then acc[k0 := Value(params[k0])] else acc;
      CopyOptionsLookup(next, keys[1..], params, k);
      assert k in keys <==> k == k0 || k in keys[1..];
    }
  }

  function KwargParams(kwargs: Option<map<string, PyVal>>): map<string, Param> {
    if kwargs.None? then map[] else map k | k in kwargs.value :: Value(kwargs.value[k])
  }

  /** install_params: the base parameters, then the remaining options named
      in keys, then kwargs over all of them. */
  function InstallParams(pkg: Package, io: InstallOptions, conn: ConnType, keys: seq<string>, rest: map<string, PyVal>): map<string, Param> {
    CopyOptions(BaseParams(pkg, io, conn), keys, rest) + KwargParams(io.kwargs)
  }

  /** The loop of lines 733-736 over the option names. */
  method CopyRemainingOptions(base: map<string, Param>, keys: seq<string>, params: map<string, PyVal>) returns (ip: map<string, Param>)
    ensures ip == CopyOptions(base, keys, params)
  {
    ip := base;
    var k := 0;
    while k < |keys|
      invariant 0 <= k <= |keys|
      invariant CopyOptions(base, keys, params) == CopyOptions(ip, keys[k..], params)
    {
      var key := keys[k];
      if key in params && params[key] != PyNone {
        ip := ip[key := Value(params[key])];
      }
      assert keys[k..][1..] == keys[k + 1..];
      k := k + 1;
    }
  }

  /** The assignments of lines 713-732. */
  method BaseInstallParams(pkg: Package, io: InstallOptions, conn: ConnType) returns (ip: map<string, Param>)
    ensures ip == BaseParams(pkg, io, conn)
  {
    ip := map[];
    if pkg.url.Some? {
      ip := ip["package" := Value(PyStr(pkg.url.value))];
    } else if pkg.localPackage.Some? {
      ip := ip["package" := Value(PyStr(pkg.localPackage.value))];
    } else if pkg.pkgSet.Some? {
      ip := ip["pkg_set" := Value(StrList(pkg.pkgSet.value))];
    } else {
      ip := ip["package" := Value(if pkg.remoteFilename.Some? then PyStr(pkg.remoteFilename.value) else PyNone)];
    }
    if pkg.remoteDir.Some? {
      ip := ip["remote_path" := Value(PyStr(pkg.remoteDir.value))];
    }
    assert ip == PackageParams(pkg);
    if conn != Local {
      ip := ip["progress" := Value(PyBool(true))];
    } else {
      ip := ip["progress" := ProgressCallback];
    }
    ip := ip["cleanfs" := Value(PyBool(pkg.cleanfs))];
    ip := ip["no_copy" := Value(PyBool(pkg.noCopy))];
    ip := ip["timeout" := Value(PyInt(io.installTimeout))];
    ip := ip["all_re" := Value(PyBool(io.allRe))];
    ip := ip["member_id" := Value(io.memberId)];
  }

  /** Builds install_params as lines 713-738 do. `optionKeys` is main's
      option_keys and `rest` the module's parameters once main has popped
      its own options. */
  method BuildInstallParams(pkg: Package, io: InstallOptions, conn: ConnType, optionKeys: seq<string>, rest: map<string, PyVal>)
    returns (ip: map<string, Param>)
    ensures ip == InstallParams(pkg, io, conn, optionKeys, rest)
  {
    ip := BaseInstallParams(pkg, io, conn);
    ip := CopyRemainingOptions(ip, optionKeys, rest);
    if io.kwargs.Some? {
      ip := ip + KwargParams(io.kwargs);
    }
  }

  /** kwargs override everything; otherwise a remaining option that is not
      None is passed as given; any other key is passed exactly as the base
      assignments set it. */
  lemma InstallParamsOverrides(pkg: Package, io: InstallOptions, conn: ConnType, keys: seq<string>, rest: map<string, PyVal>, k: string)
    ensures var ip := InstallParams(pkg, io, conn, keys, rest);
      && (io.kwargs.Some? && k in io.kwargs.value ==> k in ip && ip[k] == Value(io.kwargs.value[k]))
      && ((io.kwargs.None? || k !in io.kwargs.value) && Copied(k, keys, rest) ==> k in ip && ip[k] == Value(rest[k]))
      && ((io.kwargs.None? || k !in io.kwargs.value) && !Copied(k, keys, rest) ==>
            (k in ip <==> k in BaseParams(pkg, io, conn))
            && (k in ip ==> ip[k] == BaseParams(pkg, io, conn)[k]))
  {
    CopyOptionsLookup(BaseParams(pkg, io, conn), keys, rest, k);
  }

  /** The options main pops are never copied from the parameters. */
  lemma PoppedNotCopied(params: map<string, PyVal>, k: string)
    requires k in PoppedKeys
    ensures !Copied(k, OptionKeys, params - PoppedKeys)
  {
  }

  /** The keys set after the package's own are other keys. */
  lemma BaseKeepsPackage(pkg: Package, io: InstallOptions, conn: ConnType, k: string)
    requires k == "package" || k == "pkg_set" || k == "remote_path"
    ensures k in BaseParams(pkg, io, conn) <==> k in PackageParams(pkg)
    ensures k in PackageParams(pkg) ==> BaseParams(pkg, io, conn)[k] == PackageParams(pkg)[k]
  {
  }

  /** The package's own keys reach install_params unchanged unless kwargs
      name them: no remaining option has those names. */
  lemma InstallParamsKeepPackage(pkg: Package, io: InstallOptions, conn: ConnType, params: map<string, PyVal>, k: string)
    requires k == "package" || k == "pkg_set" || k == "remote_path"
    requires io.kwargs.None? || k !in io.kwargs.value
    ensures k in InstallParams(pkg, io, conn, OptionKeys, params - PoppedKeys) <==> k in PackageParams(pkg)
    ensures k in PackageParams(pkg) ==> InstallParams(pkg, io, conn, OptionKeys, params - PoppedKeys)[k] == PackageParams(pkg)[k]
  {
    if k == "pkg_set" {
      assert "pkg_set" in PoppedKeys;
      PoppedNotCopied(params, k);
    } else if k == "package" {
      assert "package" !in OptionKeys;
    } else {
      assert "remote_path" !in OptionKeys;
    }
    InstallParamsOverrides(pkg, io, conn, OptionKeys, params - PoppedKeys, k);
    BaseKeepsPackage(pkg, io, conn, k);
  }

  /** The package is the URL, else the local package, else the package set
      under pkg_set, else the remote file name; remote_path is set exactly
      when the remote directory is known. */
  lemma PackageParamsPrecedence(pkg: Package)
    ensures var pp := PackageParams(pkg);
      && (pkg.url.Some? ==> "package" in pp && pp["package"] == Value(PyStr(pkg.url.value)) && "pkg_set" !in pp)
      && (pkg.url.None? && pkg.localPackage.Some? ==>
            "package" in pp && pp["package"] == Value(PyStr(pkg.localPackage.value)) && "pkg_set" !in pp)
      && (pkg.url.None? && pkg.localPackage.None? && pkg.pkgSet.Some? ==>
            "package" !in pp && "pkg_set" in pp && pp["pkg_set"] == Value(StrList(pkg.pkgSet.value)))
      && (pkg.url.None? && pkg.localPackage.None? && pkg.pkgSet.None? ==>
            "package" in pp && "pkg_set" !in pp
            && pp["package"] == Value(if pkg.remoteFilename.Some? then PyStr(pkg.remoteFilename.value) else PyNone))
      && ("remote_path" in pp <==> pkg.remoteDir.Some?)
  {
  }

  /** Unless kwargs say otherwise, the package is the URL, else the local
      package, else the package set under pkg_set, else the remote file
      name; remote_path is passed exactly when the remote directory is
      known. */
  lemma InstallPackagePrecedence(pkg: Package, io: InstallOptions, conn: ConnType, params: map<string, PyVal>)
    requires io.kwargs.None? || ("package" !in io.kwargs.value && "pkg_set" !in io.kwargs.value && "remote_path" !in io.kwargs.value)
    ensures var ip := InstallParams(pkg, io, conn, OptionKeys, params - PoppedKeys);
      && (pkg.url.Some? ==> "package" in ip && ip["package"] == Value(PyStr(pkg.url.value)) && "pkg_set" !in ip)
      && (pkg.url.None? && pkg.localPackage.Some? ==>
            "package" in ip && ip["package"] == Value(PyStr(pkg.localPackage.value)) && "pkg_set" !in ip)
      && (pkg.url.None? && pkg.localPackage.None? && pkg.pkgSet.Some? ==>
            "package" !in ip && "pkg_set" in ip && ip["pkg_set"] == Value(StrList(pkg.pkgSet.value)))
      && (pkg.url.None? && pkg.localPackage.None? && pkg.pkgSet.None? ==>
            "package" in ip && "pkg_set" !in ip
            && ip["package"] == Value(if pkg.remoteFilename.Some? then PyStr(pkg.remoteFilename.value) else PyNone))
      && ("remote_path" in ip <==> pkg.remoteDir.Some?)
  {
    InstallParamsKeepPackage(pkg, io, conn, params, "package");
    InstallParamsKeepPackage(pkg, io, conn, params, "pkg_set");
    InstallParamsKeepPackage(pkg, io, conn, params, "remote_path");
    PackageParamsPrecedence(pkg);
  }

  // ---------------------------------------------------------------------
  // The device timeout around a local reboot
  // ---------------------------------------------------------------------

  const RebootTimeoutCap := 5

  /** The timeout in force during the reboot RPC: lowered to 5 seconds when
      it was longer. */
  function RebootTimeout(t: int): (u: int)
    ensures u <= RebootTimeoutCap && u <= t
    ensures u == t || (t > RebootTimeoutCap && u == RebootTimeoutCap)
  {
    if t > RebootTimeoutCap then RebootTimeoutCap else t
  }

  /** What sw.reboot did: returned a message or None, or raised. */
  datatype RebootAnswer = Got(message: Option<string>) | RebootRaised(error: LibError)

  /** How the reboot block ends: a reboot message was returned; no message
      came back (the Ansible task fails); the exception propagates to the handlers
      around the block; or, on a VM host whose reboot raised, `got` is read
      before any assignment. */
  datatype RebootEnd = Initiated(message: string) | NoResponse | Propagated(error: LibError) | Unbound(crash: Crash)

  const UnboundGot := "local variable 'got' referenced before assignment"

  function RebootEnded(a: RebootAnswer, vmhost: bool): RebootEnd {
    match a
    case Got(Some(m)) => Initiated(m)
    case Got(None) => NoResponse
    case RebootRaised(e) => if vmhost then Unbound(NameError(UnboundGot)) else Propagated(e)
  }

  /** The local reboot of lines 810-849: save the timeout, lower it, reboot
      with the lowered timeout in force, and restore it whether the reboot
      returned or raised. `answer` is the reboot's outcome under a given
      timeout. */
  method RebootLocal(dev: Session.Device, vmhost: bool, answer: int -> RebootAnswer) returns (end: RebootEnd)
    modifies dev
    ensures dev.timeout == old(dev.timeout)
    ensures end == RebootEnded(answer(RebootTimeout(old(dev.timeout))), vmhost)
  {
    var restoreTimeout := dev.timeout;
    if dev.timeout > RebootTimeoutCap {
      dev.timeout := RebootTimeoutCap;
    }
    var got: Option<Option<string>> := None;
    match answer(dev.timeout) {
      case Got(m) =>
        got := Some(m);
        dev.timeout := restoreTimeout;
      case RebootRaised(e) =>
        dev.timeout := restoreTimeout;
        if !vmhost {
          return Propagated(e);
        }
    }
    if got.None? {
      return Unbound(NameError(UnboundGot));
    }
    if got.value.Some? {
      return Initiated(got.value.value);
    }
    return NoResponse;
  }
}
