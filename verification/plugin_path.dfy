/** Locating the plugin's directory: the script id is the part of the script's
    object name before the first '_', the host's plugin table maps that id to
    the script file, and the directory is the file name up to its last path
    separator. Both cuts are String.Substring(0, index) calls that throw when
    the character is missing (index -1). */
module PluginPath {
  import opened Wrappers

  /** The separators LastIndexOfAny is given. */
  const Separators: set<char> := {'/', '\\'}

  const FontsBundleSuffix: string := "/assets/fonts.fontbundle"

  /** String.IndexOf(char): the first position of c, or None for -1. */
  function IndexOf(s: string, c: char): (r: Option<nat>)
    ensures r.None? <==> c !in s
    ensures r.Some? ==> r.value < |s| && s[r.value] == c && c !in s[..r.value]
  {
    if s == [] then None
    else if s[0] == c then Some(0)
    else
      match IndexOf(s[1..], c)
      case None => None
      case Some(i) =>
        assert s[..i + 1] == [s[0]] + s[1..][..i];
        Some(i + 1)
  }

  /** String.LastIndexOfAny(chars): the last position holding one of the chars, or None for -1. */
  function LastIndexOfAny(s: string, chars: set<char>): (r: Option<nat>)
    ensures r.None? <==> forall k :: 0 <= k < |s| ==> s[k] !in chars
    ensures r.Some? ==> r.value < |s| && s[r.value] in chars
    ensures r.Some? ==> forall k :: r.value < k < |s| ==> s[k] !in chars
    decreases |s|
  {
    if s == [] then None
    else if s[|s| - 1] in chars then Some(|s| - 1)
    else
      var r := LastIndexOfAny(s[..|s| - 1], chars);
      assert forall k :: 0 <= k < |s| - 1 ==> s[..|s| - 1][k] == s[k];
      r
  }

  /** String.Substring(0, index) where index comes from a search that may answer -1. */
  function Prefix(s: string, index: Option<nat>): (r: Result<string>)
    requires index.Some? ==> index.value <= |s|
    ensures r.Failure? <==> index.None?
    ensures r.Failure? ==> r.error == ArgumentOutOfRange
    ensures r.Success? ==> r.value == s[..index.value]
  {
    match index
    case None => Failure(ArgumentOutOfRange)
    case Some(i) => Success(s[..i])
  }

  /** The script id: the object name up to (excluding) its first '_'. */
  function ScriptId(name: string): (r: Result<string>)
    ensures r.Failure? <==> '_' !in name
    ensures r.Failure? ==> r.error == ArgumentOutOfRange
    ensures r.Success? ==> '_' !in r.value
    ensures r.Success? ==> |r.value| < |name| && name[..|r.value|] == r.value && name[|r.value|] == '_'
  {
    Prefix(name, IndexOf(name, '_'))
  }

  /** The directory of a file name: everything before the last '/' or '\'. */
  function Directory(filename: string): (r: Result<string>)
    ensures r.Failure? <==> forall k :: 0 <= k < |filename| ==> filename[k] !in Separators
    ensures r.Failure? ==> r.error == ArgumentOutOfRange
    ensures r.Success? ==> |r.value| < |filename| && filename[..|r.value|] == r.value
    ensures r.Success? ==> filename[|r.value|] in Separators
    ensures r.Success? ==> forall k :: |r.value| < k < |filename| ==> filename[k] !in Separators
  {
    Prefix(filename, LastIndexOfAny(filename, Separators))
  }

  /** GetPluginPath: the host's plugin table (GetJSON()["plugins"][id].Value) is given as pluginFile. */
  function GetPluginPath(name: string, pluginFile: string -> string): (r: Result<string>)
    ensures '_' !in name ==> r == Failure(ArgumentOutOfRange)
    ensures r.Success? ==> ScriptId(name).Success?
    ensures ScriptId(name).Success? ==> r == Directory(pluginFile(ScriptId(name).value))
  {
    var id :- ScriptId(name);
    Directory(pluginFile(id))
  }

  /** The fonts bundle path Init builds from the plugin path. */
  function FontsBundlePath(name: string, pluginFile: string -> string): (r: Result<string>)
    ensures r.Success? <==> GetPluginPath(name, pluginFile).Success?
    ensures r.Success? ==> r.value == GetPluginPath(name, pluginFile).value + FontsBundleSuffix
  {
    var dir :- GetPluginPath(name, pluginFile);
    Success(dir + FontsBundleSuffix)
  }

  /** Splitting a script name at its first '_' gives back the id it was built from. */
  lemma ScriptIdRoundTrip(id: string, rest: string)
    requires '_' !in id
    ensures ScriptId(id + "_" + rest) == Success(id)
  {
    var name := id + "_" + rest;
    assert name[..|id|] == id;
    assert name[|id|] == '_';
  }

  /** Cutting a file name at its last separator gives back the directory it was built from. */
  lemma DirectoryRoundTrip(dir: string, sep: char, base: string)
    requires sep in Separators
    requires forall k :: 0 <= k < |base| ==> base[k] !in Separators
    ensures Directory(dir + [sep] + base) == Success(dir)
  {
    var f := dir + [sep] + base;
    assert f[..|dir|] == dir;
    assert f[|dir|] == sep;
    assert forall k :: |dir| < k < |f| ==> f[k] == base[k - |dir| - 1];
  }

  /** End to end: a script named id_rest whose plugin file is dir/base lives in dir, and its fonts bundle under dir. */
  lemma PluginPathOfJoinedFile(id: string, rest: string, dir: string, sep: char, base: string, pluginFile: string -> string)
    requires '_' !in id
    requires sep in Separators
    requires forall k :: 0 <= k < |base| ==> base[k] !in Separators
    requires pluginFile(id) == dir + [sep] + base
    ensures GetPluginPath(id + "_" + rest, pluginFile) == Success(dir)
    ensures FontsBundlePath(id + "_" + rest, pluginFile) == Success(dir + FontsBundleSuffix)
  {
    ScriptIdRoundTrip(id, rest);
    DirectoryRoundTrip(dir, sep, base);
  }
}
