/**
  The four provisioner test cases, replayed against the model: each builds a
  configuration and a filesystem, runs the Provisioner and states what the
  test observes.
 */
module ProvisionerScenarios {
  import opened Outcomes
  import opened Configuration
  import opened Files
  import opened Provisioning

  const SetupRoot := "/rally-root/track/track-setup"
  const InstallPath := "/rally-root/track/track-setup/es-bin"
  const DataPath := "/tmp/some/data-path-dir"
  const Distribution := "/install/elasticsearch-3.0.0-SNAPSHOT"

  /** The setup root and install directory name every test configures. */
  method BaseConfig() returns (config: Config)
    ensures fresh(config)
    ensures config.entries == map[Key("system", "track.setup.root.dir") := Text(SetupRoot),
                                   Key("provisioning", "local.install.dir") := Text("es-bin")]
  {
    config := new Config();
    config.Add("system", "track.setup.root.dir", Text(SetupRoot));
    config.Add("provisioning", "local.install.dir", Text("es-bin"));
  }

  /**
    The first cleanup test: the existence probe answers "absent" for every
    path, so nothing is on disk; no data paths are configured. One probe, of
    the install directory, and no removal.
   */
  method CleanupNothing() returns (r: Result<()>, probed: seq<Path>, removed: seq<Path>)
    ensures r == Ok(())
    ensures probed == [InstallPath]
    ensures removed == []
  {
    var config := BaseConfig();
    config.Add("provisioning", "install.preserve", Flag(false));
    var fs := new FileSystem({});
    var p := new Provisioner(config, fs);
    var before := fs.State();
    r := p.Cleanup();
    ReplayCleanupNothing(config.entries, before);
    probed, removed := Probed(fs.calls), Removed(fs.calls);
  }

  lemma ReplayCleanupNothing(cfg: Entries, d: Disk)
    requires cfg == map[Key("system", "track.setup.root.dir") := Text(SetupRoot),
                        Key("provisioning", "local.install.dir") := Text("es-bin"),
                        Key("provisioning", "install.preserve") := Flag(false)]
    requires d == Disk({}, [])
    ensures CleanupEffect(cfg, d) == Cleaned(Ok(()), Disk({}, [Probe(InstallPath, false)]))
    ensures Probed([Probe(InstallPath, false)]) == [InstallPath]
    ensures Removed([Probe(InstallPath, false)]) == []
  {
    assert Join(SetupRoot, "es-bin") == InstallPath;
    assert InstallDir(cfg) == Ok(InstallPath);
    CleanupNothingThere(cfg, d);
    assert [Probe(InstallPath, false)] == Misses([InstallPath]);
    MissesProbeOnly([InstallPath]);
  }

  /**
    The preserve test: the existence probe answers "absent" for every path,
    and a data path is configured. Cleanup makes no call at all.
   */
  method CleanupNothingOnPreserve() returns (r: Result<()>, calls: seq<Call>, remaining: set<Path>)
    ensures r == Ok(())
    ensures calls == []
    ensures remaining == {}
  {
    var config := BaseConfig();
    config.Add("provisioning", "install.preserve", Flag(true));
    config.Add("provisioning", "datapaths", Paths([DataPath]));
    var fs := new FileSystem({});
    var p := new Provisioner(config, fs);
    r := p.Cleanup();
    calls, remaining := fs.calls, fs.existing;
  }

  /**
    The third cleanup test: the existence probe answers "present" for every
    path, so both the data path and the install directory are on disk. Each
    is probed, then removed, data path first.
   */
  method CleanupBoth() returns (r: Result<()>, calls: seq<Call>, remaining: set<Path>)
    ensures r == Ok(())
    ensures Probed(calls) == [DataPath, InstallPath]
    ensures Removed(calls) == [DataPath, InstallPath]
    ensures calls == [Probe(DataPath, true), Remove(DataPath), Probe(InstallPath, true), Remove(InstallPath)]
    ensures remaining == {}
  {
    var config := BaseConfig();
    config.Add("provisioning", "install.preserve", Flag(false));
    config.Add("provisioning", "datapaths", Paths([DataPath]));
    var fs := new FileSystem({DataPath, InstallPath});
    var p := new Provisioner(config, fs);
    var before := fs.State();
    r := p.Cleanup();
    calls, remaining := fs.calls, fs.existing;
    ReplayCleanupBoth(config.entries, before);
  }

  lemma ReplayCleanupBoth(cfg: Entries, d: Disk)
    requires cfg == map[Key("system", "track.setup.root.dir") := Text(SetupRoot),
                        Key("provisioning", "local.install.dir") := Text("es-bin"),
                        Key("provisioning", "install.preserve") := Flag(false),
                        Key("provisioning", "datapaths") := Paths([DataPath])]
    requires d == Disk({DataPath, InstallPath}, [])
    ensures CleanupEffect(cfg, d) == Cleaned(Ok(()), Disk({}, Hits([DataPath, InstallPath])))
    ensures Probed(Hits([DataPath, InstallPath])) == [DataPath, InstallPath]
    ensures Removed(Hits([DataPath, InstallPath])) == [DataPath, InstallPath]
    ensures Hits([DataPath, InstallPath]) ==
            [Probe(DataPath, true), Remove(DataPath), Probe(InstallPath, true), Remove(InstallPath)]
  {
    var targets := [DataPath, InstallPath];
    CleanupBothPlan(cfg);
    assert DataPath[1] != InstallPath[1];
    assert !Covers(DataPath, InstallPath);
    SweepAllPresent(d, targets);
    SweepClears(d, targets);
    var after := Sweep(d, targets);
    assert after.existing <= d.existing - {DataPath, InstallPath};
    assert d.existing - {DataPath, InstallPath} == {};
    HitsProbeAndRemove(targets);
    HitsOfTwo(DataPath, InstallPath);
  }

  /** The cleanup test's configuration plans to sweep the data path and then the install directory. */
  lemma CleanupBothPlan(cfg: Entries)
    requires cfg == map[Key("system", "track.setup.root.dir") := Text(SetupRoot),
                        Key("provisioning", "local.install.dir") := Text("es-bin"),
                        Key("provisioning", "install.preserve") := Flag(false),
                        Key("provisioning", "datapaths") := Paths([DataPath])]
    ensures PlanCleanup(cfg) == Ok(Wipe([DataPath, InstallPath]))
  {
    assert Join(SetupRoot, "es-bin") == InstallPath;
    assert RequireFlag(cfg, "provisioning", "install.preserve") == Ok(false);
    assert InstallDir(cfg) == Ok(InstallPath);
    assert DataPaths(cfg) == Ok([DataPath]);
    assert [DataPath] + [InstallPath] == [DataPath, InstallPath];
  }

  lemma HitsOfTwo(a: Path, b: Path)
    ensures Hits([a, b]) == [Probe(a, true), Remove(a), Probe(b, true), Remove(b)]
  {
    assert [a, b][..1] == [a];
    assert [a][..0] == [];
    assert Hits([a]) == [Probe(a, true), Remove(a)];
    assert Hits([a, b]) == Hits([a]) + [Probe(b, true), Remove(b)];
  }

  /**
    The prepare test: the archive is found, unpacked into the install
    directory, and the match inside is recorded as the binary path. The
    test's existence probe answers "present" for every path; the model's
    prepare makes no probe, so the disk here holds just the install directory.
   */
  method PrepareRecordsDistribution() returns (r: Result<()>, binaryPath: Result<Value>)
    ensures r == Ok(())
    ensures binaryPath == Ok(Text(Distribution))
  {
    var config := BaseConfig();
    config.Add("system", "env.name", Text("unittest"));
    config.Add("builder", "candidate.bin.path", Text("/data/builds/distributions/"));
    config.Add("provisioning", "datapaths", Paths([]));
    var fs := new FileSystem({InstallPath});
    var p := new Provisioner(config, fs);
    r := p.Prepare(TrackSetup("test-track", "Description"), _ => [Distribution], _ => []);
    binaryPath := config.Opts("provisioning", "local.binary.path");
  }
}
