/**
 * Where the configuration lives. Both scripts build the same three paths
 * from the user's home directory; the home directory is a parameter here.
 */
module Paths {

  /** `path.join(os.homedir(), '.openclaw', 'openclaw.json')` */
  function ConfigPath(home: string): string
  {
    home + "/.openclaw/openclaw.json"
  }

  /** `path.join(os.homedir(), '.openclaw', 'openclaw.json.bak')`: a sibling of the config. */
  function BackupPath(home: string): (p: string)
    ensures p == ConfigPath(home) + ".bak"
  {
    home + "/.openclaw/openclaw.json.bak"
  }

  /** The directory holding both files. */
  function ConfigDir(home: string): string
  {
    home + "/.openclaw"
  }

  /** Index of the last '/' in `p`, or -1 when there is none. */
  function LastSlash(p: string): (i: int)
    ensures -1 <= i < |p|
    ensures 0 <= i ==> p[i] == '/'
    ensures forall j :: i < j < |p| ==> p[j] != '/'
    decreases |p|
  {
    if p == [] then -1
    else if p[|p| - 1] == '/' then |p| - 1
    else LastSlash(p[..|p| - 1])
  }

  /** `path.dirname` for a path without trailing separators. */
  function Dirname(p: string): string
  {
    var i := LastSlash(p);
    if i < 0 then "." else if i == 0 then "/" else p[..i]
  }

  lemma LastSlashBefore(a: string, b: string)
    requires forall j :: 0 <= j < |b| ==> b[j] != '/'
    ensures LastSlash(a + "/" + b) == |a|
  {
    var p := a + "/" + b;
    assert p[|a|] == '/';
  }

  /** The directory the scripts create is the dirname of the config path, and it also holds the backup. */
  lemma ConfigDirIsDirname(home: string)
    ensures Dirname(ConfigPath(home)) == ConfigDir(home)
    ensures Dirname(BackupPath(home)) == ConfigDir(home)
  {
    LastSlashBefore(ConfigDir(home), "openclaw.json");
    assert ConfigPath(home) == ConfigDir(home) + "/" + "openclaw.json";
    assert ConfigPath(home)[..|ConfigDir(home)|] == ConfigDir(home);
    LastSlashBefore(ConfigDir(home), "openclaw.json.bak");
    assert BackupPath(home) == ConfigDir(home) + "/" + "openclaw.json.bak";
    assert BackupPath(home)[..|ConfigDir(home)|] == ConfigDir(home);
  }

  /** The three paths are pairwise different. */
  lemma PathsDistinct(home: string)
    ensures ConfigPath(home) != BackupPath(home)
    ensures ConfigPath(home) != ConfigDir(home)
    ensures BackupPath(home) != ConfigDir(home)
  {
  }
}
