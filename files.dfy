/** Local files as the workers see them: a path names a directory and a
    final component, and the disk is a map from full path to contents that
    components append to, overwrite or delete from. */
module Files {
  import opened Strings

  /** `PurePath.suffix` of a final path component: from the last dot on,
      unless that dot is the first or the last character. */
  function NameSuffix(name: string): string {
    var i := RFind(name, '.');
    if 0 < i < |name| - 1 then name[i..] else ""
  }

  /** `PurePath.stem`: the final component without its suffix. */
  function NameStem(name: string): string {
    var i := RFind(name, '.');
    if 0 < i < |name| - 1 then name[..i] else name
  }

  /** The stem and the suffix split the name; a non-empty suffix is one dot
      followed by at least one character and no further dot. */
  lemma NameStemSuffix(name: string)
    ensures NameStem(name) + NameSuffix(name) == name
    ensures NameSuffix(name) == "" || (|NameSuffix(name)| >= 2 && NameSuffix(name)[0] == '.' && '.' !in NameSuffix(name)[1..])
  {
    var i := RFind(name, '.');
    if 0 < i < |name| - 1 {
      assert name[..i] + name[i..] == name;
      forall j | 0 <= j < |name[i..][1..]| ensures name[i..][1..][j] != '.' {
        assert name[i..][1..][j] == name[i + 1 + j];
      }
    }
  }

  /** A name made of a non-empty stem, a dot and an extension without dots
      has that dot and extension as its suffix. */
  lemma NameSuffixOf(stem: string, ext: string)
    requires |stem| > 0 && |ext| > 0 && '.' !in ext
    ensures NameSuffix(stem + "." + ext) == "." + ext
  {
    var name := stem + "." + ext;
    assert name[|stem|] == '.';
    assert forall j :: |stem| < j < |name| ==> name[j] == ext[j - |stem| - 1];
    assert name[|stem|..] == "." + ext;
  }

  /** A file: the directory it lives in and its final component. */
  datatype FilePath = FilePath(dir: string, name: string) {
    /** The path as one string, the key under which the disk holds it. */
    function Full(): string { dir + "/" + name }
    function Stem(): string { NameStem(name) }
    function Suffix(): string { NameSuffix(name) }
  }

  /** `dir / a / b` as a string. */
  function Under(dir: string, sub: string): string { dir + "/" + sub }

  /** The final component of `dir/name` is what follows its last
      separator, when `name` holds none. */
  lemma LastComponent(dir: string, name: string)
    requires '/' !in name
    ensures RFind(Under(dir, name), '/') == |dir|
  {
    var s := Under(dir, name);
    assert s[|dir|] == '/';
    assert forall j :: |dir| < j < |s| ==> s[j] == name[j - |dir| - 1];
  }

  /** Two equal paths whose final components hold no separator have the
      same final component, whatever their directories. */
  lemma SameName(dir1: string, name1: string, dir2: string, name2: string)
    requires '/' !in name1 && '/' !in name2 && Under(dir1, name1) == Under(dir2, name2)
    ensures name1 == name2
  {
    var s := Under(dir1, name1);
    LastComponent(dir1, name1);
    LastComponent(dir2, name2);
    assert s[|dir1| + 1..] == name1;
  }

  /** `path.read_text() if path.exists() else ""` */
  function ReadOr(fs: map<string, string>, path: string): string {
    if path in fs then fs[path] else ""
  }

  /** The disk after `open(path, "a").write(text)`. */
  function Appended(fs: map<string, string>, path: string, text: string): (r: map<string, string>)
    ensures path in r && r[path] == ReadOr(fs, path) + text
    ensures forall p :: p in fs ==> p in r
    ensures forall p :: p in r && p != path ==> p in fs && r[p] == fs[p]
  {
    fs[path := ReadOr(fs, path) + text]
  }

  /** Appending to one file adds to that file's content and to no other. */
  lemma ReadAppended(fs: map<string, string>, path: string, text: string, p: string)
    ensures ReadOr(Appended(fs, path, text), p) == ReadOr(fs, p) + (if p == path then text else "")
  {
  }

  /** The local file system, shared by every component. */
  class Disk {
    var files: map<string, string>

    constructor (initial: map<string, string>)
      ensures files == initial
    {
      files := initial;
    }

    /** `open(path, "a").write(text)`: creates the file when missing. */
    method Append(path: string, text: string)
      modifies this
      ensures files == Appended(old(files), path, text)
    {
      files := Appended(files, path, text);
    }

    /** `path.write_text(text)`: replaces whatever was there. */
    method Write(path: string, text: string)
      modifies this
      ensures files == old(files)[path := text]
    {
      files := files[path := text];
    }

    /** `path.unlink()` with its error ignored: a missing file stays missing. */
    method Remove(path: string)
      modifies this
      ensures files == old(files) - {path}
    {
      files := files - {path};
    }
  }
}
