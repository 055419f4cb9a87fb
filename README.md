# Rally Provisioner: install-directory lifecycle

This project models the Provisioner of Rally, the Elasticsearch benchmarking tool
(`rally.mechanic.provisioner.Provisioner`). The Provisioner owns the install
directory of one benchmark run and the run's data directories, and has two
operations:

- `prepare(track_setup)` finds the candidate archive by pattern search under
  `builder.candidate.bin.path`. It makes sure the install directory exists,
  unpacks the archive into it, and searches the install directory again. The
  first match is recorded under `provisioning.local.binary.path`.
- `cleanup()` does nothing at all when `provisioning.install.preserve` is set.
  Otherwise it walks the configured `provisioning.datapaths` (none when the key
  is absent) and then the install directory. It probes each path for existence
  and removes it, with everything below it, only when the probe finds it.

The install directory is `system.track.setup.root.dir` joined with
`provisioning.local.install.dir`.

The Provisioner's own source file is not part of this model. Its behaviour is
taken from the test cases in `tests/mechanic/provisioner_test.py`. They pin
down the calls `cleanup` makes and the binary path `prepare` records. What
`prepare` does to the filesystem is not asserted by them; the model follows
the documented design, in which only `cleanup` removes anything.

Files:

- `outcomes.dfy` (`Outcomes`): the `Error` kinds and a `Result` type usable with `:-`.
- `configuration.dfy` (`Configuration`): the configuration store, a `Config`
  object over a map from (section, key) to a string, boolean or path-list
  value, with mandatory and optional typed lookups.
- `files.dfy` (`Files`): paths, `Join`, `Covers` ("lies at or below"), the
  `FileSystem` object, and its state as a value: a `Disk` holding the set of
  existing paths and the log of calls made (probes with their answers,
  removals, directory creation, extraction).
- `provisioning.dfy` (`Provisioning`): the `Provisioner` object. Each of its
  methods is proved equal to a specification function (`CleanupEffect`,
  `PrepareEffect`). The properties below are proved as lemmas about those functions.
- `scenarios.dfy` (`ProvisionerScenarios`): the four test cases replayed on the
  objects, each as a method stating what the test observes.

In `test_cleanup`, lines 61-62 assign the expected call lists to
`mock_calls` rather than asserting them, so that test checks nothing. The
model proves the evidently intended behaviour: each data path, then the
install directory, is probed and then removed.

When a pattern search finds several paths, the model takes the first; it does
not treat several matches as an error. An empty search result is an error
(`NoMatch`), because indexing the first element of an empty list fails.

## Model

| member | source | states |
|---|---|---|
| Configuration.Lookup | tests/mechanic/provisioner_test.py:86 | a read succeeds exactly when the key is present, yields the stored value, and otherwise reports the missing key |
| Configuration.RequireText | tests/mechanic/provisioner_test.py:16-18 | a mandatory text key reads as its text exactly when present with a text value; otherwise the error says whether it is missing or of the wrong kind |
| Configuration.RequireFlag | tests/mechanic/provisioner_test.py:19 | a mandatory flag reads as its boolean exactly when present with a flag value; otherwise the error says whether it is missing or of the wrong kind |
| Configuration.OptionalPaths | tests/mechanic/provisioner_test.py:13-25 | an absent optional path list reads as the empty list; a present one reads as its paths, or as a wrong-kind error |
| Configuration.Config.Add | tests/mechanic/provisioner_test.py:16-19 | adding a value files it under (section, key) and leaves every other key as it was |
| Configuration.Config.Opts | tests/mechanic/provisioner_test.py:86 | reading a key succeeds exactly when it is present, and yields the stored value |
| Files.JoinSplits | tests/mechanic/provisioner_test.py:17-18 | a joined path starts with the directory, then one separator, then the name, and lies strictly below the directory |
| Files.FileSystem.Exists | tests/mechanic/provisioner_test.py:11-14 | the probe answers whether the path exists, changes no path, and is logged with its answer |
| Files.FileSystem.RemoveTree | tests/mechanic/provisioner_test.py:10 | removal deletes the path and everything below it, nothing else, and is logged |
| Files.FileSystem.EnsureDir | tests/mechanic/provisioner_test.py:67 | directory creation adds the directory and never fails when it already exists |
| Files.FileSystem.Unzip | tests/mechanic/provisioner_test.py:66 | extraction adds the archive's entries below the target directory and removes nothing; every path it adds lies strictly below the target |
| Provisioning.InstallDir | tests/mechanic/provisioner_test.py:17-24 | the install directory can be derived exactly when the setup root and install directory name are both present as text; it is the name joined onto the root, and lies strictly below the root |
| Provisioning.DataPaths | tests/mechanic/provisioner_test.py:13-25 | with no `datapaths` key the run has no data paths |
| Provisioning.Sweep | tests/mechanic/provisioner_test.py:48-62 | the cleanup loop only appends to the call log and never rewrites earlier calls |
| Provisioning.StepProbes | tests/mechanic/provisioner_test.py:60-61 | one turn of the cleanup loop probes its target once and nothing else |
| Provisioning.SweepProbes | tests/mechanic/provisioner_test.py:60-61 | the cleanup loop probes exactly its targets, each once, in the given order |
| Provisioning.SweepGuarded | tests/mechanic/provisioner_test.py:60-62 | every removal comes right after a probe of the same path that found it, and every probe that finds its path is followed by its removal |
| Provisioning.SweepExisting | tests/mechanic/provisioner_test.py:55-62 | a path survives the loop exactly when it existed and no target that existed lies at or above it |
| Provisioning.SweepClears | tests/mechanic/provisioner_test.py:55-62 | after the loop no target exists and no path has appeared |
| Provisioning.SweepOverAbsent | tests/mechanic/provisioner_test.py:14-25 | when no target exists the loop only probes, once per target, each answered absent, and changes no path |
| Provisioning.SweepAllPresent | tests/mechanic/provisioner_test.py:49-62 | when every target exists and none lies below an earlier one, each is probed, found and removed in turn |
| Provisioning.MissesProbeOnly | tests/mechanic/provisioner_test.py:24-25 | the calls of an all-absent loop probe every target and remove none |
| Provisioning.HitsProbeAndRemove | tests/mechanic/provisioner_test.py:60-62 | the calls of an all-present loop probe every target and remove every target, in the same order |
| Provisioning.CleanupPreserved | tests/mechanic/provisioner_test.py:30-43 | with preserve set, cleanup succeeds with no probe, no removal and no change to any path, whatever the data paths |
| Provisioning.CleanupConfigError | tests/mechanic/provisioner_test.py:16-22 | cleanup fails exactly when the preserve flag, or (when it is clear) the install directory keys or the data paths, cannot be read; a failing cleanup touches nothing |
| Provisioning.CleanupWipes | tests/mechanic/provisioner_test.py:45-62 | with preserve clear, cleanup probes the data paths and then the install directory, removes only what a probe found, leaves none of them and removes nothing outside them |
| Provisioning.CleanupNothingThere | tests/mechanic/provisioner_test.py:13-25 | with no data paths key and no install directory on disk, cleanup probes once, for the install directory, and removes nothing |
| Provisioning.CleanupAllPresent | tests/mechanic/provisioner_test.py:48-62 | with every target present and none nested in an earlier one, the calls are probe and remove of each data path, then of the install directory |
| Provisioning.CleanupTwice | tests/mechanic/provisioner_test.py:13-25 | a second cleanup gives the same outcome, leaves the same paths and makes only probes that find nothing |
| Provisioning.PrepareSucceeds | tests/mechanic/provisioner_test.py:64-84 | prepare succeeds exactly when the environment name, candidate path, setup root and install directory name are present and both pattern searches find something |
| Provisioning.PrepareRecordsRoot | tests/mechanic/provisioner_test.py:84-86 | a successful prepare records the first match inside the install directory as the binary path and changes no other key; a failed one changes no key |
| Provisioning.PrepareLocateError | tests/mechanic/provisioner_test.py:74-84 | when a key prepare reads is missing or the candidate search finds nothing, prepare fails with that error and changes neither the filesystem nor the configuration |
| Provisioning.PrepareOnlyAdds | tests/mechanic/provisioner_test.py:66-67 | prepare never probes or removes; it creates the install directory, and every path it adds lies in the install directory |
| Provisioning.PrepareReadsFourKeys | tests/mechanic/provisioner_test.py:74-79 | two configurations that agree on the four keys prepare reads give the same outcome, the same filesystem and the same binary path |
| Provisioning.PrepareTwice | tests/mechanic/provisioner_test.py:64-86 | repeating a successful prepare succeeds and changes neither the configuration nor the set of existing paths |
| Provisioning.Provisioner.constructor | tests/mechanic/provisioner_test.py:21 | a Provisioner works on the configuration store and filesystem it is given |
| Provisioning.Provisioner.Cleanup | tests/mechanic/provisioner_test.py:10-62 | the probe-then-remove loop leaves exactly the outcome and filesystem that CleanupEffect gives |
| Provisioning.Provisioner.Prepare | tests/mechanic/provisioner_test.py:64-86 | the steps of prepare leave exactly the outcome, filesystem and configuration that PrepareEffect gives |
| ProvisionerScenarios.CleanupNothing | tests/mechanic/provisioner_test.py:13-25 | the first test, with nothing on disk: one probe, of `/rally-root/track/track-setup/es-bin`, and no removal |
| ProvisionerScenarios.ReplayCleanupNothing | tests/mechanic/provisioner_test.py:14-25 | the first test's configuration and empty disk give exactly one failed probe of the install directory |
| ProvisionerScenarios.CleanupNothingOnPreserve | tests/mechanic/provisioner_test.py:30-43 | the preserve test, with nothing on disk and a data path configured: no call at all |
| ProvisionerScenarios.CleanupBoth | tests/mechanic/provisioner_test.py:48-62 | the cleanup test: the data path and then the install directory are each probed and removed, and nothing remains |
| ProvisionerScenarios.ReplayCleanupBoth | tests/mechanic/provisioner_test.py:51-60 | the cleanup test's configuration and filesystem give exactly the intended call list |
| ProvisionerScenarios.CleanupBothPlan | tests/mechanic/provisioner_test.py:51-55 | the cleanup test's configuration sweeps the data path first, then `/rally-root/track/track-setup/es-bin` |
| ProvisionerScenarios.PrepareRecordsDistribution | tests/mechanic/provisioner_test.py:71-86 | the prepare test: prepare succeeds and the binary path reads back as `/install/elasticsearch-3.0.0-SNAPSHOT` |

## Left out

- Pattern matching (`glob.glob`) is an oracle parameter. It maps the directory searched to the list of matches. The patterns themselves are not modelled.
- Archive extraction (`rally.utils.io.unzip`) is abstract. An oracle gives the archive's entry names, and extraction adds them below the install directory. Extraction failures are not modelled.
- Provisioning.PrepareOnlyAdds: states that prepare never probes or removes. The tests do not assert this: `test_prepare` mocks `os.path.exists` and `shutil.rmtree` (lines 68-72) without checking their calls. It is the model's choice, following the documented design that only cleanup removes directories.
- Provisioning.PrepareEffect: takes the first match when a pattern search finds several. The tests' `glob.glob` stub returns one path, so they say nothing about several matches; treating several as an error is not modelled.
- Files.FileSystem.EnsureDir: adds only the directory itself, not its missing parents.
- Path joining is concatenation with one `/`. Operating-system normalisation (trailing separators, absolute second parts) is not modelled.
- The filesystem is a set of paths. It does not force a path's parents to exist. A path below an absent target therefore survives cleanup, as `SweepExisting` states.
- Permission errors and other failures of a probe or a removal are not modelled. `RemoveTree` requires its path to exist, which the cleanup loop ensures by probing first.
- Provisioning.Provisioner.Prepare: does not model the configuration files that prepare writes for the candidate (the mocked `builtins.open` at line 64). Their contents are not visible in the tests.
- Logging is left out (`logging.Logger` is mocked in every test).
- Configuration scopes are left out. The store is one flat map. A value of the wrong kind (say a string where a flag is expected) is a `WrongType` error; Python truthiness is not modelled.
- `TrackSetup` is passed to `Prepare` and not inspected.
