/** The fixed on-disk layout: plugin binaries under `plugins/` and plugin
    configuration files under `config/`, one directory per vendor/project. */
module Paths {
  import opened Model

  const PluginRoot := "plugins"
  const ConfigRoot := "config"
  const IncludeExtension := ".dll"
  const MainExtension := ".net.dll"
  const ConfigExtension := ".yml"

  /** `plugins/{vendor}/{project}/{id}.dll` */
  function IncludePath(plugin: PluginName, id: string): Path {
    [PluginRoot, plugin.vendor, plugin.project, id + IncludeExtension]
  }

  /** `plugins/{vendor}/{project}/{id}.net.dll` */
  function MainPath(plugin: PluginName, id: string): Path {
    [PluginRoot, plugin.vendor, plugin.project, id + MainExtension]
  }

  /** `config/{vendor}/{project}/{fileName}.yml` */
  function ConfigPath(plugin: PluginName, fileName: string): Path {
    [ConfigRoot, plugin.vendor, plugin.project, fileName + ConfigExtension]
  }

  /** A path under the plugin binary root. */
  predicate IsModulePath(p: Path) {
    |p| > 0 && p[0] == PluginRoot
  }

  /** A path under the configuration root. */
  predicate IsConfigPath(p: Path) {
    |p| > 0 && p[0] == ConfigRoot
  }

  /** Module paths and configuration paths never coincide, so writing a
      default configuration can never make a missing module appear. */
  lemma ModuleAndConfigPathsDisjoint(p: Path)
    ensures !(IsModulePath(p) && IsConfigPath(p))
  {
    assert PluginRoot[0] != ConfigRoot[0];
  }

  lemma LayoutRoots(plugin: PluginName, id: string)
    ensures IsModulePath(IncludePath(plugin, id))
    ensures IsModulePath(MainPath(plugin, id))
    ensures IsConfigPath(ConfigPath(plugin, id))
  {
  }

  /** Appending the same suffix is injective. */
  lemma SuffixInjective(a: string, b: string, suffix: string)
    requires a + suffix == b + suffix
    ensures a == b
  {
    assert |a| == |b|;
    assert a == (a + suffix)[..|a|];
    assert b == (b + suffix)[..|b|];
  }

  /** Each (plugin, FileName) pair has its own configuration file. */
  lemma ConfigPathInjective(p1: PluginName, f1: string, p2: PluginName, f2: string)
    requires ConfigPath(p1, f1) == ConfigPath(p2, f2)
    ensures p1 == p2 && f1 == f2
  {
    assert ConfigPath(p1, f1)[3] == ConfigPath(p2, f2)[3];
    SuffixInjective(f1, f2, ConfigExtension);
  }

  /** Main module files of different plugins differ. */
  lemma MainPathsDiffer(p1: PluginName, i1: string, p2: PluginName, i2: string)
    requires p1 != p2
    ensures MainPath(p1, i1) != MainPath(p2, i2)
  {
    assert MainPath(p1, i1)[1..3] == [p1.vendor, p1.project];
    assert MainPath(p2, i2)[1..3] == [p2.vendor, p2.project];
  }
}
