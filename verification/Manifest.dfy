/** Collecting release assets for the update manifest (scripts/sign_update_manifest.go): each file of the directory
    that is one, by the platform that its name tells. */
module Manifest {

  import opened Options

  // ---------------------------------------------------------------- names

  predicate HasPrefix(s: string, prefix: string) { prefix <= s }

  predicate HasSuffix(s: string, suffix: string) {
    |suffix| <= |s| && s[|s| - |suffix|..] == suffix
  }

  predicate Contains(s: string, sub: string) {
    exists i | 0 <= i <= |s| - |sub| :: HasPrefix(s[i..], sub)
  }

  /** A directory entry; a file that cannot be read has no hash. */
  datatype File = File(name: string, isDir: bool, hash: Option<string>)

  datatype App = Client | Agent

  function AssetPrefix(app: App): string {
    if app.Client? then "USBridgeClient" else "USBridgeAgent"
  }

  /** Updated by a store or a package manager, or the first install only. */
  predicate UpdatesElsewhere(name: string) {
    || Contains(name, "-iOS-") || HasSuffix(name, ".ipa")
    || Contains(name, "-market") || HasSuffix(name, ".aab")
    || Contains(name, "-Setup")
    || HasSuffix(name, ".deb") || HasSuffix(name, ".rpm") || HasSuffix(name, ".pkg.tar.zst")
    || HasSuffix(name, ".snap") || HasSuffix(name, ".flatpak")
  }

  predicate Eligible(f: File, app: App) {
    !f.isDir && HasPrefix(f.name, AssetPrefix(app) + "-") && !UpdatesElsewhere(f.name)
  }

  /** The two apps' manifests have no file in common. */
  lemma EligibleForOneApp(f: File)
    ensures !(Eligible(f, Client) && Eligible(f, Agent))
  {
    var c, a := AssetPrefix(Client) + "-", AssetPrefix(Agent) + "-";
    assert c[8] == 'C' && a[8] == 'A' by { assert "USBridgeClient"[8] == 'C' && "USBridgeAgent"[8] == 'A'; }
    assert HasPrefix(f.name, c) ==> f.name[8] == c[8];
    assert HasPrefix(f.name, a) ==> f.name[8] == a[8];
  }

  datatype System = Windows | Linux | Darwin | Android

  datatype Arch = Arm64 | Amd64

  /** A platform key, `<system>-<arch>`. */
  datatype Key = Key(system: System, arch: Arch)

  function SystemOf(name: string): Option<System> {
    if Contains(name, "-Windows-") then Some(Windows)
    else if Contains(name, "-Linux-") then Some(Linux)
    else if Contains(name, "-macOS-") then Some(Darwin)
    else if Contains(name, "-Android-") then Some(Android)
    else None
  }

  function ArchOf(name: string): Option<Arch> {
    if Contains(name, "arm64") then Some(Arm64)
    else if Contains(name, "x86_64") || Contains(name, "amd64") then Some(Amd64)
    else None
  }

  function PlatformKeyFor(name: string): Option<Key> {
    if SystemOf(name).None? || ArchOf(name).None? then None else Some(Key(SystemOf(name).value, ArchOf(name).value))
  }

  // ---------------------------------------------------------------- what names tell

  /** How a release names its systems, in the order they are looked for. */
  function Tag(s: System): string {
    match s
    case Windows => "-Windows-"
    case Linux => "-Linux-"
    case Darwin => "-macOS-"
    case Android => "-Android-"
  }

  predicate Before(s: System, t: System) {
    match s
    case Windows => !t.Windows?
    case Linux => t.Darwin? || t.Android?
    case Darwin => t.Android?
    case Android => false
  }

  /** The text stands somewhere in the name. */
  ghost predicate StandsIn(sub: string, name: string) {
    exists a, b :: name == a + sub + b
  }

  lemma ContainsIs(name: string, sub: string)
    ensures Contains(name, sub) <==> StandsIn(sub, name)
  {
    if Contains(name, sub) {
      var i :| 0 <= i <= |name| - |sub| && HasPrefix(name[i..], sub);
      assert name == name[..i] + sub + name[i + |sub|..];
    }
    if StandsIn(sub, name) {
      var a, b :| name == a + sub + b;
      assert name[|a|..] == sub + b;
    }
  }

  /** A name's system is the one whose tag stands in it, and no earlier one's does. */
  lemma SystemIsTagged(name: string, s: System)
    ensures SystemOf(name) == Some(s) <==> StandsIn(Tag(s), name) && forall t | Before(t, s) :: !StandsIn(Tag(t), name)
  {
    forall t: System ensures Contains(name, Tag(t)) <==> StandsIn(Tag(t), name) { ContainsIs(name, Tag(t)); }
    assert s.Linux? ==> Before(Windows, s);
    assert s.Darwin? ==> Before(Windows, s) && Before(Linux, s);
    assert s.Android? ==> Before(Windows, s) && Before(Linux, s) && Before(Darwin, s);
  }

  /** Its architecture is arm64 when that stands in it, and else amd64 when either name of that does. */
  lemma ArchIsNamed(name: string)
    ensures ArchOf(name) == Some(Arm64) <==> StandsIn("arm64", name)
    ensures ArchOf(name) == Some(Amd64) <==> !StandsIn("arm64", name) && (StandsIn("x86_64", name) || StandsIn("amd64", name))
  {
    ContainsIs(name, "arm64");
    ContainsIs(name, "x86_64");
    ContainsIs(name, "amd64");
  }

  lemma Lacks(name: string, sub: string, k: nat)
    requires k < |sub| && sub[k] !in name
    ensures !Contains(name, sub)
  {
    forall i | 0 <= i <= |name| - |sub| ensures !HasPrefix(name[i..], sub) {
      assert name[i..][k] == name[i + k] && name[i + k] in name;
    }
  }

  lemma StandsThere(a: string, sub: string, b: string)
    ensures Contains(a + sub + b, sub)
  {
    ContainsIs(a + sub + b, sub);
  }

  const WINDOWS_ZIP := "USBridgeClient" + "-Windows-" + "x86_64" + ".zip"
  const MACOS_DMG := "USBridgeAgent" + "-macOS-" + "arm64" + ".dmg"
  const ANDROID_APK := "USBridgeClient" + "-Android-" + "arm64" + "-selfupdate.apk"

  lemma PartsOfName(a: string, tag: string, arch: string, b: string)
    ensures Contains(a + tag + arch + b, tag) && Contains(a + tag + arch + b, arch)
  {
    StandsThere(a + tag, arch, b);
    StandsThere(a, tag, arch + b);
    assert a + tag + (arch + b) == a + tag + arch + b;
  }

  /** Names that releases have. */
  lemma WindowsZip()
    ensures PlatformKeyFor(WINDOWS_ZIP) == Some(Key(Windows, Amd64))
  {
    PartsOfName("USBridgeClient", "-Windows-", "x86_64", ".zip");
    Lacks(WINDOWS_ZIP, "arm64", 2);
  }

  lemma MacosDmg()
    ensures PlatformKeyFor(MACOS_DMG) == Some(Key(Darwin, Arm64))
  {
    PartsOfName("USBridgeAgent", "-macOS-", "arm64", ".dmg");
    Lacks(MACOS_DMG, "-Windows-", 1);
    Lacks(MACOS_DMG, "-Linux-", 1);
  }

  lemma AndroidApk()
    ensures PlatformKeyFor(ANDROID_APK) == Some(Key(Android, Arm64))
  {
    PartsOfName("USBridgeClient", "-Android-", "arm64", "-selfupdate.apk");
    AndroidApkHasNoOtherTag();
  }

  lemma AndroidApkHasNoOtherTag()
    ensures !Contains(ANDROID_APK, "-Windows-") && !Contains(ANDROID_APK, "-Linux-") && !Contains(ANDROID_APK, "-macOS-")
  {
    assert 'W' !in ANDROID_APK && 'L' !in ANDROID_APK && 'O' !in ANDROID_APK;
    Lacks(ANDROID_APK, "-Windows-", 1);
    Lacks(ANDROID_APK, "-Linux-", 1);
    Lacks(ANDROID_APK, "-macOS-", 4);
  }

  // ---------------------------------------------------------------- collecting

  datatype Asset = Asset(name: string, hash: string)

  /** An entry as the loop sees it. */
  datatype Entry = Skipped | Candidate(name: string, key: Option<Key>, hash: Option<string>)

  datatype Result = Ok(platforms: map<Key, Asset>) | NoKey(name: string) | Duplicate(key: Key, name: string) | NoHash(name: string)

  function EntryOf(f: File, app: App): Entry {
    if Eligible(f, app) then Candidate(f.name, PlatformKeyFor(f.name), f.hash) else Skipped
  }

  function Seen(files: seq<File>, app: App): (entries: seq<Entry>)
    ensures |entries| == |files|
  {
    if files == [] then [] else Seen(files[..|files| - 1], app) + [EntryOf(files[|files| - 1], app)]
  }

  lemma {:induction false} SeenAt(files: seq<File>, app: App, k: nat)
    requires k < |files|
    ensures Seen(files, app)[k] == EntryOf(files[k], app)
  {
    if k < |files| - 1 { SeenAt(files[..|files| - 1], app, k); }
  }

  /** What one entry adds. */
  function Add(platforms: map<Key, Asset>, e: Entry): Result {
    match e
    case Skipped => Ok(platforms)
    case Candidate(name, key, hash) =>
      if key.None? then NoKey(name)
      else if key.value in platforms then Duplicate(key.value, name)
      else if hash.None? then NoHash(name)
      else Ok(platforms[key.value := Asset(name, hash.value)])
  }

  /** The entries in order, up to the first that fails. */
  function Collect(entries: seq<Entry>): Result {
    if entries == [] then Ok(map[])
    else
      var before := Collect(entries[..|entries| - 1]);
      if before.Ok? then Add(before.platforms, entries[|entries| - 1]) else before
  }

  lemma {:induction false} CollectStops(entries: seq<Entry>, n: nat)
    requires n <= |entries| && !Collect(entries[..n]).Ok?
    ensures Collect(entries) == Collect(entries[..n])
  {
    if n < |entries| {
      assert entries[..|entries| - 1][..n] == entries[..n];
      CollectStops(entries[..|entries| - 1], n);
    } else {
      assert entries[..n] == entries;
    }
  }

  /** The checks that skip a file. */
  method IsEligible(f: File, app: App) returns (eligible: bool)
    ensures eligible == Eligible(f, app)
  {
    if f.isDir || !HasPrefix(f.name, AssetPrefix(app) + "-") { return false; }
    return !UpdatesElsewhere(f.name);
  }

  /** The file as the loop takes it. */
  method Classify(files: seq<File>, n: nat, app: App) returns (e: Entry)
    requires n < |files|
    ensures e == Seen(files, app)[n]
  {
    SeenAt(files, app, n);
    var eligible := IsEligible(files[n], app);
    if !eligible { return Skipped; }
    return Candidate(files[n].name, PlatformKeyFor(files[n].name), files[n].hash);
  }

  /** collectPlatforms, once the directory is read. */
  method CollectPlatforms(files: seq<File>, app: App) returns (r: Result)
    ensures r == Collect(Seen(files, app))
  {
    var platforms: map<Key, Asset> := map[];
    ghost var entries := Seen(files, app);
    for n := 0 to |files|
      invariant Collect(entries[..n]) == Ok(platforms)
    {
      var e := Classify(files, n, app);
      CollectOneMore(entries, n, platforms);
      if e.Skipped? { continue; }
      if e.key.None? { return NoKey(e.name); }
      if e.key.value in platforms { return Duplicate(e.key.value, e.name); }
      if e.hash.None? { return NoHash(e.name); }
      platforms := platforms[e.key.value := Asset(e.name, e.hash.value)];
    }
    assert entries[..|files|] == entries;
    return Ok(platforms);
  }

  lemma CollectOneMore(entries: seq<Entry>, n: nat, platforms: map<Key, Asset>)
    requires n < |entries| && Collect(entries[..n]) == Ok(platforms)
    ensures Collect(entries[..n + 1]) == Add(platforms, entries[n])
    ensures !Add(platforms, entries[n]).Ok? ==> Collect(entries) == Add(platforms, entries[n])
  {
    assert entries[..n + 1][..n] == entries[..n];
    if !Add(platforms, entries[n]).Ok? { CollectStops(entries, n + 1); }
  }

  // ---------------------------------------------------------------- what it comes to

  /** No candidate lacks a key or a hash, and no two have one key. */
  predicate Unambiguous(entries: seq<Entry>) {
    && (forall e | e in entries :: e.Candidate? ==> e.key.Some? && e.hash.Some?)
    && (forall i, j | 0 <= i < j < |entries| ::
          entries[i].Candidate? && entries[j].Candidate? ==> entries[i].key != entries[j].key)
  }

  /** The map has each candidate under its key, and nothing else. */
  predicate Listing(m: map<Key, Asset>, entries: seq<Entry>) {
    && (forall key | key in m :: Candidate(m[key].name, Some(key), Some(m[key].hash)) in entries)
    && (forall e | e in entries :: e.Candidate? ==>
          e.key.Some? && e.hash.Some? && e.key.value in m && m[e.key.value] == Asset(e.name, e.hash.value))
  }

  lemma ListingGrows(m: map<Key, Asset>, before: seq<Entry>, e: Entry)
    requires Listing(m, before) && Add(m, e).Ok?
    ensures Listing(Add(m, e).platforms, before + [e])
  {
    var n, all := Add(m, e).platforms, before + [e];
    forall key | key in n ensures Candidate(n[key].name, Some(key), Some(n[key].hash)) in all {
      if key in m { assert Candidate(m[key].name, Some(key), Some(m[key].hash)) in before; }
      assert e in all;
    }
    forall c | c in all && c.Candidate?
      ensures c.key.Some? && c.hash.Some? && c.key.value in n && n[c.key.value] == Asset(c.name, c.hash.value)
    {
      assert c in before || c == e;
    }
  }

  lemma LastDecides(before: seq<Entry>, e: Entry, m: map<Key, Asset>)
    requires Unambiguous(before) && Listing(m, before)
    ensures Add(m, e).Ok? <==> Unambiguous(before + [e])
  {
    var all, n := before + [e], |before|;
    assert all[n] == e && e in all;
    assert forall i | 0 <= i < n :: all[i] == before[i] && before[i] in before;
    assert forall c | c in all :: c in before || c == e;
    if e.Candidate? && e.key.Some? && e.key.value in m {
      var c := Candidate(m[e.key.value].name, e.key, Some(m[e.key.value].hash));
      assert c in before;
      var i :| 0 <= i < n && before[i] == c;
      assert all[i].key == all[n].key;
    }
  }

  lemma UnambiguousBefore(before: seq<Entry>, e: Entry)
    requires Unambiguous(before + [e])
    ensures Unambiguous(before)
  {
    var all := before + [e];
    assert forall i | 0 <= i < |before| :: all[i] == before[i];
    assert forall c | c in before :: c in all;
  }

  /** Collecting succeeds exactly when no candidate lacks a key or a hash and no two share a key; the map then lists
      the candidates. */
  lemma {:induction false} CollectsUnlessAmbiguous(entries: seq<Entry>)
    ensures Collect(entries).Ok? <==> Unambiguous(entries)
    ensures Collect(entries).Ok? ==> Listing(Collect(entries).platforms, entries)
  {
    if entries != [] {
      var before, e := entries[..|entries| - 1], entries[|entries| - 1];
      assert before + [e] == entries;
      CollectsUnlessAmbiguous(before);
      if Unambiguous(before) {
        LastDecides(before, e, Collect(before).platforms);
        if Collect(entries).Ok? { ListingGrows(Collect(before).platforms, before, e); }
      } else if Unambiguous(entries) {
        UnambiguousBefore(before, e);
      }
    }
  }

  lemma ListingsAgree(m: map<Key, Asset>, n: map<Key, Asset>, entries: seq<Entry>)
    requires Listing(m, entries) && Listing(n, entries)
    ensures m == n
  {
    assert forall key | key in m :: Candidate(m[key].name, Some(key), Some(m[key].hash)) in entries;
    assert forall key | key in n :: Candidate(n[key].name, Some(key), Some(n[key].hash)) in entries;
  }

  // ---------------------------------------------------------------- for any directory

  /** A directory has one entry of a name. */
  predicate Distinct(files: seq<File>) {
    forall i, j | 0 <= i < j < |files| :: files[i].name != files[j].name
  }

  predicate SameFiles(a: seq<File>, b: seq<File>) {
    (forall f | f in a :: f in b) && (forall f | f in b :: f in a)
  }

  lemma SeenIn(a: seq<File>, b: seq<File>, app: App, e: Entry)
    requires SameFiles(a, b) && e in Seen(a, app)
    ensures e in Seen(b, app)
  {
    var i :| 0 <= i < |a| && Seen(a, app)[i] == e;
    assert a[i] in a;
    var j :| 0 <= j < |b| && b[j] == a[i];
    SeenAt(a, app, i);
    SeenAt(b, app, j);
  }

  lemma SameListing(m: map<Key, Asset>, a: seq<Entry>, b: seq<Entry>)
    requires (forall e | e in a :: e in b) && (forall e | e in b :: e in a)
    requires Listing(m, a)
    ensures Listing(m, b)
  {
  }

  /** Two files of one key, in any order of the directory. */
  lemma AmbiguousEitherWay(a: seq<File>, b: seq<File>, app: App)
    requires Distinct(a) && Distinct(b) && SameFiles(a, b) && Unambiguous(Seen(a, app))
    ensures Unambiguous(Seen(b, app))
  {
    var s, t := Seen(a, app), Seen(b, app);
    forall e | e in t && e.Candidate? ensures e.key.Some? && e.hash.Some? {
      SeenIn(b, a, app, e);
    }
    forall i, j | 0 <= i < j < |t| && t[i].Candidate? && t[j].Candidate? ensures t[i].key != t[j].key {
      assert b[i] in b && b[j] in b;
      var k :| 0 <= k < |a| && a[k] == b[i];
      var l :| 0 <= l < |a| && a[l] == b[j];
      SeenAt(a, app, k);
      SeenAt(a, app, l);
      SeenAt(b, app, i);
      SeenAt(b, app, j);
      assert s[k] == t[i] && s[l] == t[j] && k != l;
      if k < l { assert s[k].key != s[l].key; } else { assert s[l].key != s[k].key; }
    }
  }

  /** The order of the directory decides neither whether collecting succeeds nor what it gives. */
  lemma OrderDoesNotMatter(a: seq<File>, b: seq<File>, app: App)
    requires Distinct(a) && Distinct(b) && SameFiles(a, b)
    ensures Collect(Seen(a, app)).Ok? <==> Collect(Seen(b, app)).Ok?
    ensures Collect(Seen(a, app)).Ok? ==> Collect(Seen(a, app)) == Collect(Seen(b, app))
  {
    var s, t := Seen(a, app), Seen(b, app);
    CollectsUnlessAmbiguous(s);
    CollectsUnlessAmbiguous(t);
    if Unambiguous(s) { AmbiguousEitherWay(a, b, app); }
    if Unambiguous(t) { AmbiguousEitherWay(b, a, app); }
    forall e | e in s ensures e in t { SeenIn(a, b, app, e); }
    forall e | e in t ensures e in s { SeenIn(b, a, app, e); }
    if Collect(s).Ok? {
      SameListing(Collect(s).platforms, s, t);
      ListingsAgree(Collect(s).platforms, Collect(t).platforms, t);
    }
  }

  /** Every eligible file is under the key its name tells. */
  lemma EligibleFilesAreListed(files: seq<File>, app: App, f: File)
    requires Collect(Seen(files, app)).Ok? && f in files && Eligible(f, app)
    ensures var m := Collect(Seen(files, app)).platforms; var key := PlatformKeyFor(f.name);
            key.Some? && f.hash.Some? && key.value in m && m[key.value] == Asset(f.name, f.hash.value)
  {
    CollectsUnlessAmbiguous(Seen(files, app));
    var i :| 0 <= i < |files| && files[i] == f;
    SeenAt(files, app, i);
    assert EntryOf(f, app) in Seen(files, app);
  }

  /** And every key is that of one eligible file: no other key has it. */
  lemma KeysAreOfFiles(files: seq<File>, app: App, key: Key) returns (f: File)
    requires Collect(Seen(files, app)).Ok? && key in Collect(Seen(files, app)).platforms
    ensures var m := Collect(Seen(files, app)).platforms;
            && f in files && Eligible(f, app) && PlatformKeyFor(f.name) == Some(key)
            && m[key].name == f.name && f.hash == Some(m[key].hash)
            && forall other | other in m && m[other].name == f.name :: other == key
  {
    var s := Seen(files, app);
    CollectsUnlessAmbiguous(s);
    var m := Collect(s).platforms;
    f := FileOf(files, app, m[key], key);
    forall other | other in m && m[other].name == f.name ensures other == key {
      var g := FileOf(files, app, m[other], other);
    }
  }

  lemma FileOf(files: seq<File>, app: App, asset: Asset, key: Key) returns (f: File)
    requires Candidate(asset.name, Some(key), Some(asset.hash)) in Seen(files, app)
    ensures f in files && Eligible(f, app) && PlatformKeyFor(f.name) == Some(key)
    ensures asset.name == f.name && f.hash == Some(asset.hash)
  {
    var s := Seen(files, app);
    var i :| 0 <= i < |s| && s[i] == Candidate(asset.name, Some(key), Some(asset.hash));
    f := files[i];
    SeenAt(files, app, i);
  }

  /** An error is the truth about an entry. */
  lemma {:induction false} ErrorsAreTrue(entries: seq<Entry>)
    ensures match Collect(entries)
            case Ok(_) => true
            case NoKey(name) => exists j | 0 <= j < |entries| :: entries[j].Candidate? && entries[j].name == name && entries[j].key.None?
            case NoHash(name) => exists j | 0 <= j < |entries| :: entries[j].Candidate? && entries[j].name == name && entries[j].hash.None?
            case Duplicate(key, name) => exists i, j | 0 <= i < j < |entries| :: SharesKey(entries[i], entries[j], key, name)
  {
    if entries != [] {
      var before, last := entries[..|entries| - 1], |entries| - 1;
      ErrorsAreTrue(before);
      match Collect(before)
      case Ok(m) =>
        if Add(m, entries[last]).Duplicate? {
          CollectsUnlessAmbiguous(before);
          var i := DuplicateIsTrue(before, entries[last], m);
          assert SharesKey(entries[i], entries[last], Collect(entries).key, Collect(entries).name);
        }
      case NoKey(name) =>
        var j :| 0 <= j < |before| && before[j].Candidate? && before[j].name == name && before[j].key.None?;
        assert entries[j] == before[j];
      case NoHash(name) =>
        var j :| 0 <= j < |before| && before[j].Candidate? && before[j].name == name && before[j].hash.None?;
        assert entries[j] == before[j];
      case Duplicate(key, name) =>
        var i, j :| 0 <= i < j < |before| && SharesKey(before[i], before[j], key, name);
        assert SharesKey(entries[i], entries[j], key, name);
    }
  }

  predicate SharesKey(first: Entry, second: Entry, key: Key, name: string) {
    first.Candidate? && second.Candidate? && first.key == Some(key) == second.key && second.name == name
  }

  lemma DuplicateIsTrue(before: seq<Entry>, e: Entry, m: map<Key, Asset>) returns (i: nat)
    requires Listing(m, before) && Add(m, e).Duplicate?
    ensures i < |before| && SharesKey(before[i], e, Add(m, e).key, Add(m, e).name)
  {
    var c := Candidate(m[e.key.value].name, e.key, Some(m[e.key.value].hash));
    assert c in before;
    i :| 0 <= i < |before| && before[i] == c;
  }
}
