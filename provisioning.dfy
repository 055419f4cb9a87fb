/**
  The Provisioner: prepares a benchmark candidate's install directory before a
  run and tears the run's directories down afterwards.

  `cleanup` reads the preserve flag; when it is set it returns at once. When
  it is not, it walks the configured data paths and then the install
  directory, removing each one that an existence probe finds.

  `prepare` finds the candidate archive by pattern search under the
  candidate binary path, makes sure the install directory exists, unpacks
  the archive into it, searches the install directory again and records the
  first match as `provisioning.local.binary.path`.
 */
module Provisioning {
  import opened Outcomes
  import opened Configuration
  import opened Files

  /** The benchmark scenario being prepared for; passed through, never inspected. */
  datatype TrackSetup = TrackSetup(name: string, description: string)

  /** The key `prepare` writes the resolved distribution root under. */
  const BinaryPath := Key("provisioning", "local.binary.path")

  /** The install directory: the local install directory name joined onto the setup root. */
  function InstallDir(cfg: Entries): (r: Result<Path>)
    ensures var root, name := Key("system", "track.setup.root.dir"), Key("provisioning", "local.install.dir");
            && (r.Ok? <==> root in cfg && cfg[root].Text? && name in cfg && cfg[name].Text?)
            && (r.Ok? ==> r.value == Join(cfg[root].text, cfg[name].text))
            && (r.Ok? ==> Covers(cfg[root].text, r.value) && r.value != cfg[root].text)
  {
    var root :- RequireText(cfg, "system", "track.setup.root.dir");
    var name :- RequireText(cfg, "provisioning", "local.install.dir");
    Ok(Join(root, name))
  }

  /** The extra data directories of the run; none when the key is absent. */
  function DataPaths(cfg: Entries): (r: Result<seq<Path>>)
    ensures Key("provisioning", "datapaths") !in cfg ==> r == Ok([])
  {
    OptionalPaths(cfg, "provisioning", "datapaths")
  }

  // ---------------------------------------------------------------------
  // cleanup

  /** What `cleanup` decides from configuration alone, before touching the filesystem. */
  datatype CleanupPlan = Keep | Wipe(targets: seq<Path>)

  function PlanCleanup(cfg: Entries): Result<CleanupPlan> {
    var preserve :- RequireFlag(cfg, "provisioning", "install.preserve");
    if preserve then Ok(Keep)
    else
      var dir :- InstallDir(cfg);
      var data :- DataPaths(cfg);
      Ok(Wipe(data + [dir]))
  }

  /** One turn of the cleanup loop: probe `target`, and remove it if it was found. */
  function Step(d: Disk, target: Path): Disk {
    var probed := AfterProbe(d, target);
    if target in d.existing then AfterRemove(probed, target) else probed
  }

  /** The cleanup loop over `targets`, in order. It only ever appends to the call log. */
  function Sweep(d: Disk, targets: seq<Path>): (r: Disk)
    ensures |d.calls| <= |r.calls| && r.calls[..|d.calls|] == d.calls
    decreases |targets|
  {
    if targets == [] then d
    else Step(Sweep(d, targets[..|targets| - 1]), targets[|targets| - 1])
  }

  datatype Cleaned = Cleaned(result: Result<()>, disk: Disk)

  /** The whole effect of `cleanup` on a filesystem, under a configuration. */
  function CleanupEffect(cfg: Entries, d: Disk): Cleaned {
    match PlanCleanup(cfg)
    case Err(e) => Cleaned(Err(e), d)
    case Ok(Keep) => Cleaned(Ok(()), d)
    case Ok(Wipe(targets)) => Cleaned(Ok(()), Sweep(d, targets))
  }

  /** The calls a sweep makes when none of its targets exists: one failed probe each. */
  function Misses(targets: seq<Path>): (r: seq<Call>)
    ensures |r| == |targets|
  {
    seq(|targets|, i requires 0 <= i < |targets| => Probe(targets[i], false))
  }

  /** The calls a sweep makes when every target exists when its turn comes. */
  function Hits(targets: seq<Path>): seq<Call>
    decreases |targets|
  {
    if targets == [] then []
    else Hits(targets[..|targets| - 1]) + [Probe(targets[|targets| - 1], true), Remove(targets[|targets| - 1])]
  }

  /** The calls of an all-absent sweep probe every target and remove none. */
  lemma {:induction false} MissesProbeOnly(targets: seq<Path>)
    ensures Probed(Misses(targets)) == targets
    ensures Removed(Misses(targets)) == []
    decreases |targets|
  {
    if targets != [] {
      var init := targets[..|targets| - 1];
      MissesProbeOnly(init);
      assert Misses(targets)[..|targets| - 1] == Misses(init);
    }
  }

  /** The calls of an all-present sweep probe every target and remove every target, in order. */
  lemma {:induction false} HitsProbeAndRemove(targets: seq<Path>)
    ensures Probed(Hits(targets)) == targets
    ensures Removed(Hits(targets)) == targets
    decreases |targets|
  {
    if targets != [] {
      var init, t := targets[..|targets| - 1], targets[|targets| - 1];
      HitsProbeAndRemove(init);
      var withProbe := Hits(init) + [Probe(t, true)];
      assert Hits(targets) == withProbe + [Remove(t)];
      assert Hits(targets)[..|withProbe|] == withProbe;
      assert withProbe[..|Hits(init)|] == Hits(init);
      assert targets == init + [t];
    }
  }

  /** One loop turn probes its target once and probes nothing else. */
  lemma StepProbes(e: Disk, t: Path)
    ensures Probed(Step(e, t).calls) == Probed(e.calls) + [t]
  {
    var probed := AfterProbe(e, t);
    assert probed.calls[..|e.calls|] == e.calls;
    if t in e.existing {
      var removed := AfterRemove(probed, t);
      assert removed.calls[..|probed.calls|] == probed.calls;
    }
  }

  /** A sweep probes exactly its targets, each once, in order. */
  lemma {:induction false} SweepProbes(d: Disk, targets: seq<Path>)
    ensures Probed(Sweep(d, targets).calls) == Probed(d.calls) + targets
    decreases |targets|
  {
    if targets != [] {
      var init, t := targets[..|targets| - 1], targets[|targets| - 1];
      SweepProbes(d, init);
      StepProbes(Sweep(d, init), t);
      assert targets == init + [t];
    }
  }

  /** One loop turn keeps "removal exactly when a probe found the path". */
  lemma StepGuarded(d: Disk, target: Path)
    requires ProbeGuardsRemoval(d.calls)
    ensures ProbeGuardsRemoval(Step(d, target).calls)
  {
  }

  /** A sweep removes a path only right after a probe that found it, and removes every path a probe found. */
  lemma {:induction false} SweepGuarded(d: Disk, targets: seq<Path>)
    requires ProbeGuardsRemoval(d.calls)
    ensures ProbeGuardsRemoval(Sweep(d, targets).calls)
    decreases |targets|
  {
    if targets != [] {
      SweepGuarded(d, targets[..|targets| - 1]);
      StepGuarded(Sweep(d, targets[..|targets| - 1]), targets[|targets| - 1]);
    }
  }

  /**
    Exactly what survives a sweep: a path survives if and only if it existed
    and no target that existed beforehand lies at or above it.
   */
  lemma {:induction false} SweepExisting(d: Disk, targets: seq<Path>, q: Path)
    ensures q in Sweep(d, targets).existing <==>
            q in d.existing && forall t :: t in targets && t in d.existing ==> !Covers(t, q)
    decreases |targets|
  {
    if targets != [] {
      var init, t := targets[..|targets| - 1], targets[|targets| - 1];
      assert targets == init + [t];
      SweepExisting(d, init, q);
      var e := Sweep(d, init);
      SweepExisting(d, init, t);
      if t !in e.existing && t in d.existing && Covers(t, q) {
        var u :| u in init && u in d.existing && Covers(u, t);
        CoversTransitive(u, t, q);
      }
    }
  }

  /** After a sweep none of its targets exists, and nothing that was not already there appears. */
  lemma SweepClears(d: Disk, targets: seq<Path>)
    ensures Sweep(d, targets).existing <= d.existing
    ensures forall t :: t in targets ==> t !in Sweep(d, targets).existing
  {
  }

  /** When no target exists, a sweep only probes: each target once, each answered "absent". */
  lemma {:induction false} SweepOverAbsent(d: Disk, targets: seq<Path>)
    requires forall t :: t in targets ==> t !in d.existing
    ensures Sweep(d, targets) == Disk(d.existing, d.calls + Misses(targets))
    decreases |targets|
  {
    if targets != [] {
      var init, t := targets[..|targets| - 1], targets[|targets| - 1];
      assert forall u :: u in init ==> u in targets;
      SweepOverAbsent(d, init);
      assert Misses(targets) == Misses(init) + [Probe(t, false)];
    }
  }

  /**
    When every target exists and none lies below an earlier one, each target
    is probed, found and removed in turn.
   */
  lemma {:induction false} SweepAllPresent(d: Disk, targets: seq<Path>)
    requires forall j :: 0 <= j < |targets| ==> targets[j] in d.existing
    requires forall i, j :: 0 <= i < j < |targets| ==> !Covers(targets[i], targets[j])
    ensures Sweep(d, targets).calls == d.calls + Hits(targets)
    decreases |targets|
  {
    if targets != [] {
      var init, t := targets[..|targets| - 1], targets[|targets| - 1];
      SweepAllPresent(d, init);
      SweepExisting(d, init, t);
      forall u | u in init && u in d.existing
        ensures !Covers(u, t)
      {
        var i :| 0 <= i < |init| && init[i] == u;
        assert targets[i] == u;
      }
    }
  }

  /** With the preserve flag set, cleanup probes nothing and removes nothing, whatever the data paths. */
  lemma CleanupPreserved(cfg: Entries, d: Disk)
    requires Key("provisioning", "install.preserve") in cfg
    requires cfg[Key("provisioning", "install.preserve")] == Flag(true)
    ensures CleanupEffect(cfg, d) == Cleaned(Ok(()), d)
  {
  }

  /** A configuration error stops cleanup before it touches the filesystem. */
  lemma CleanupConfigError(cfg: Entries, d: Disk)
    ensures CleanupEffect(cfg, d).result.Err? <==>
            RequireFlag(cfg, "provisioning", "install.preserve").Err? ||
            (RequireFlag(cfg, "provisioning", "install.preserve") == Ok(false) &&
             (InstallDir(cfg).Err? || DataPaths(cfg).Err?))
    ensures CleanupEffect(cfg, d).result.Err? ==> CleanupEffect(cfg, d).disk == d
  {
  }

  /**
    With the preserve flag clear, cleanup probes the data paths and then the
    install directory, removes each only right after a probe found it, leaves
    none of them behind, and removes nothing that lies outside all of them.
   */
  lemma CleanupWipes(cfg: Entries, d: Disk)
    requires RequireFlag(cfg, "provisioning", "install.preserve") == Ok(false)
    requires InstallDir(cfg).Ok? && DataPaths(cfg).Ok?
    ensures var out := CleanupEffect(cfg, d);
            var targets := DataPaths(cfg).value + [InstallDir(cfg).value];
            && out.result == Ok(())
            && Probed(out.disk.calls) == Probed(d.calls) + targets
            && (ProbeGuardsRemoval(d.calls) ==> ProbeGuardsRemoval(out.disk.calls))
            && out.disk.existing <= d.existing
            && (forall t :: t in targets ==> t !in out.disk.existing)
            && (forall q :: q in d.existing && (forall t :: t in targets ==> !Covers(t, q)) ==> q in out.disk.existing)
  {
    var targets := DataPaths(cfg).value + [InstallDir(cfg).value];
    assert PlanCleanup(cfg) == Ok(Wipe(targets));
    SweepProbes(d, targets);
    if ProbeGuardsRemoval(d.calls) {
      SweepGuarded(d, targets);
    }
    SweepClears(d, targets);
    forall q | q in d.existing && (forall t :: t in targets ==> !Covers(t, q))
      ensures q in Sweep(d, targets).existing
    {
      SweepExisting(d, targets, q);
    }
  }

  /**
    With no data paths configured and no install directory on disk, cleanup
    probes once, for the install directory, and removes nothing.
   */
  lemma CleanupNothingThere(cfg: Entries, d: Disk)
    requires RequireFlag(cfg, "provisioning", "install.preserve") == Ok(false)
    requires Key("provisioning", "datapaths") !in cfg
    requires InstallDir(cfg).Ok? && InstallDir(cfg).value !in d.existing
    ensures CleanupEffect(cfg, d) == Cleaned(Ok(()), Disk(d.existing, d.calls + [Probe(InstallDir(cfg).value, false)]))
  {
    var dir := InstallDir(cfg).value;
    assert PlanCleanup(cfg) == Ok(Wipe([] + [dir]));
    SweepOverAbsent(d, [dir]);
  }

  /**
    With everything present and no target below another, cleanup probes and
    removes each data path, then the install directory.
   */
  lemma CleanupAllPresent(cfg: Entries, d: Disk)
    requires RequireFlag(cfg, "provisioning", "install.preserve") == Ok(false)
    requires InstallDir(cfg).Ok? && DataPaths(cfg).Ok?
    requires var targets := DataPaths(cfg).value + [InstallDir(cfg).value];
             && (forall j :: 0 <= j < |targets| ==> targets[j] in d.existing)
             && (forall i, j :: 0 <= i < j < |targets| ==> !Covers(targets[i], targets[j]))
    ensures CleanupEffect(cfg, d).disk.calls == d.calls + Hits(DataPaths(cfg).value + [InstallDir(cfg).value])
  {
    var targets := DataPaths(cfg).value + [InstallDir(cfg).value];
    assert PlanCleanup(cfg) == Ok(Wipe(targets));
    SweepAllPresent(d, targets);
  }

  /**
    Cleanup is idempotent: a second run reports the same outcome, leaves the
    same paths, and only makes probes that find nothing.
   */
  lemma CleanupTwice(cfg: Entries, d: Disk)
    ensures var first := CleanupEffect(cfg, d);
            var second := CleanupEffect(cfg, first.disk);
            && second.result == first.result
            && second.disk.existing == first.disk.existing
            && |first.disk.calls| <= |second.disk.calls|
            && second.disk.calls[..|first.disk.calls|] == first.disk.calls
            && forall c :: c in second.disk.calls[|first.disk.calls|..] ==> c.Probe? && !c.found
  {
    var first := CleanupEffect(cfg, d);
    if PlanCleanup(cfg).Ok? && PlanCleanup(cfg).value.Wipe? {
      var targets := PlanCleanup(cfg).value.targets;
      SweepClears(d, targets);
      SweepOverAbsent(first.disk, targets);
      var second := CleanupEffect(cfg, first.disk);
      assert second.disk.calls == first.disk.calls + Misses(targets);
      assert second.disk.calls[|first.disk.calls|..] == Misses(targets);
    }
  }

  // ---------------------------------------------------------------------
  // prepare

  /**
    The configuration reads and the first pattern search of `prepare`: the
    candidate archive (first match under the candidate binary path) and the
    install directory.
   */
  function Locate(cfg: Entries, glob: Path -> seq<Path>): Result<(Path, Path)> {
    var env :- RequireText(cfg, "system", "env.name");
    var binDir :- RequireText(cfg, "builder", "candidate.bin.path");
    var dir :- InstallDir(cfg);
    var candidates := glob(binDir);
    if candidates == [] then Err(NoMatch(binDir)) else Ok((candidates[0], dir))
  }

  datatype Prepared = Prepared(result: Result<()>, disk: Disk, cfg: Entries)

  /**
    The whole effect of `prepare`. `glob` answers a pattern search under a
    directory; `contents` gives the entry names of an archive.
   */
  function PrepareEffect(cfg: Entries, d: Disk, glob: Path -> seq<Path>, contents: Path -> seq<string>): Prepared {
    match Locate(cfg, glob)
    case Err(e) => Prepared(Err(e), d, cfg)
    case Ok((candidate, dir)) =>
      var unpacked := AfterExtract(AfterMakeDirs(d, dir), candidate, dir, contents(candidate));
      var roots := glob(dir);
      if roots == [] then Prepared(Err(NoMatch(dir)), unpacked, cfg)
      else Prepared(Ok(()), unpacked, cfg[BinaryPath := Text(roots[0])])
  }

  /** The four keys `prepare` reads. */
  predicate AgreeOnPrepareKeys(c1: Entries, c2: Entries) {
    forall k :: k in {Key("system", "env.name"), Key("system", "track.setup.root.dir"),
                      Key("builder", "candidate.bin.path"), Key("provisioning", "local.install.dir")} ==>
      (k in c1 <==> k in c2) && (k in c1 ==> c1[k] == c2[k])
  }

  /**
    `prepare` succeeds exactly when the four keys it reads are present as
    strings and both pattern searches find something.
   */
  lemma PrepareSucceeds(cfg: Entries, d: Disk, glob: Path -> seq<Path>, contents: Path -> seq<string>)
    ensures PrepareEffect(cfg, d, glob, contents).result.Ok? <==>
            && RequireText(cfg, "system", "env.name").Ok?
            && RequireText(cfg, "builder", "candidate.bin.path").Ok?
            && InstallDir(cfg).Ok?
            && glob(RequireText(cfg, "builder", "candidate.bin.path").value) != []
            && glob(InstallDir(cfg).value) != []
  {
  }

  /**
    On success `prepare` records the first match inside the install directory
    as the binary path and changes no other key; on failure it changes no key.
   */
  lemma PrepareRecordsRoot(cfg: Entries, d: Disk, glob: Path -> seq<Path>, contents: Path -> seq<string>)
    ensures var out := PrepareEffect(cfg, d, glob, contents);
            && (out.result.Ok? ==>
                  && InstallDir(cfg).Ok?
                  && |glob(InstallDir(cfg).value)| > 0
                  && BinaryPath in out.cfg
                  && out.cfg[BinaryPath] == Text(glob(InstallDir(cfg).value)[0]))
            && (forall k :: k != BinaryPath ==> (k in out.cfg <==> k in cfg))
            && (forall k :: k != BinaryPath && k in cfg ==> out.cfg[k] == cfg[k])
            && (out.result.Err? ==> out.cfg == cfg)
  {
  }

  /**
    A configuration error, or no candidate archive found, stops `prepare`
    before it touches the filesystem or the configuration.
   */
  lemma PrepareLocateError(cfg: Entries, d: Disk, glob: Path -> seq<Path>, contents: Path -> seq<string>)
    requires Locate(cfg, glob).Err?
    ensures PrepareEffect(cfg, d, glob, contents) == Prepared(Err(Locate(cfg, glob).error), d, cfg)
  {
  }

  /**
    `prepare` never removes anything or probes: it only adds the install
    directory and what it unpacks, all of which lies in the install directory.
   */
  lemma PrepareOnlyAdds(cfg: Entries, d: Disk, glob: Path -> seq<Path>, contents: Path -> seq<string>)
    ensures var out := PrepareEffect(cfg, d, glob, contents);
            && d.existing <= out.disk.existing
            && Removed(out.disk.calls) == Removed(d.calls)
            && Probed(out.disk.calls) == Probed(d.calls)
            && (Locate(cfg, glob).Ok? ==> InstallDir(cfg).value in out.disk.existing)
            && (forall p :: p in out.disk.existing - d.existing ==> Covers(InstallDir(cfg).value, p))
  {
  }

  /** `prepare` reads only the environment name, setup root, candidate binary path and install directory name. */
  lemma PrepareReadsFourKeys(c1: Entries, c2: Entries, d: Disk, glob: Path -> seq<Path>, contents: Path -> seq<string>)
    requires AgreeOnPrepareKeys(c1, c2)
    ensures PrepareEffect(c1, d, glob, contents).result == PrepareEffect(c2, d, glob, contents).result
    ensures PrepareEffect(c1, d, glob, contents).disk == PrepareEffect(c2, d, glob, contents).disk
    ensures PrepareEffect(c1, d, glob, contents).result.Ok? ==>
            PrepareEffect(c1, d, glob, contents).cfg[BinaryPath] == PrepareEffect(c2, d, glob, contents).cfg[BinaryPath]
  {
  }

  /**
    Repeating a successful `prepare` changes neither the configuration nor
    the set of existing paths: directory creation and unpacking are idempotent.
   */
  lemma PrepareTwice(cfg: Entries, d: Disk, glob: Path -> seq<Path>, contents: Path -> seq<string>)
    requires PrepareEffect(cfg, d, glob, contents).result.Ok?
    ensures var first := PrepareEffect(cfg, d, glob, contents);
            var second := PrepareEffect(first.cfg, first.disk, glob, contents);
            second.result.Ok? && second.cfg == first.cfg && second.disk.existing == first.disk.existing
  {
  }

  // ---------------------------------------------------------------------
  // the Provisioner object

  class Provisioner {
    const config: Config
    const fs: FileSystem

    /** A Provisioner over a configuration store and the filesystem it manages. */
    constructor (config: Config, fs: FileSystem)
      ensures this.config == config && this.fs == fs
    {
      this.config := config;
      this.fs := fs;
    }

    /** Removes the run's data paths and install directory unless told to preserve them. */
    method Cleanup() returns (r: Result<()>)
      modifies fs
      ensures Cleaned(r, fs.State()) == CleanupEffect(config.entries, old(fs.State()))
    {
      var preserve :- RequireFlag(config.entries, "provisioning", "install.preserve");
      if preserve {
        return Ok(());
      }
      var dir :- InstallDir(config.entries);
      var data :- DataPaths(config.entries);
      var targets := data + [dir];
      var i := 0;
      while i < |targets|
        invariant 0 <= i <= |targets|
        invariant fs.State() == Sweep(old(fs.State()), targets[..i])
      {
        var path := targets[i];
        var present := fs.Exists(path);
        if present {
          fs.RemoveTree(path);
        }
        assert targets[..i + 1][..i] == targets[..i];
        i := i + 1;
      }
      assert targets[..i] == targets;
      r := Ok(());
    }

    /**
      Unpacks the candidate archive into the install directory and records
      the distribution root it finds there.
     */
    method Prepare(setup: TrackSetup, glob: Path -> seq<Path>, contents: Path -> seq<string>) returns (r: Result<()>)
      modifies config, fs
      ensures Prepared(r, fs.State(), config.entries) ==
              PrepareEffect(old(config.entries), old(fs.State()), glob, contents)
    {
      var env :- RequireText(config.entries, "system", "env.name");
      var binDir :- RequireText(config.entries, "builder", "candidate.bin.path");
      var dir :- InstallDir(config.entries);
      var candidates := glob(binDir);
      if candidates == [] {
        return Err(NoMatch(binDir));
      }
      fs.EnsureDir(dir);
      fs.Unzip(candidates[0], dir, contents(candidates[0]));
      var roots := glob(dir);
      if roots == [] {
        return Err(NoMatch(dir));
      }
      config.Add("provisioning", "local.binary.path", Text(roots[0]));
      r := Ok(());
    }
  }
}
