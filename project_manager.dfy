/** The list of open projects (src/project_manager.cpp). The file system is
    not modelled: openProject is given whether the path exists, whether it
    is a directory, and the directory's file entries. */
module ProjectManagers {
  import opened Text
  import opened Lists
  import opened Projects

  /** QDir(path).filePath(name) for a plain entry name: the name under the
      directory, with one '/' between them. */
  function FilePath(path: string, name: string): (r: string)
    ensures HasPrefix(r, path)
    ensures |r| >= |name| && r[|r| - |name|..] == name
  {
    if path == "" then name
    else if path[|path| - 1] == '/' then path + name
    else path + "/" + name
  }

  /** Different entries of one directory get different paths. */
  lemma FilePathInjective(path: string, a: string, b: string)
    requires FilePath(path, a) == FilePath(path, b)
    ensures a == b
  {
    var pre := if path == "" then "" else if path[|path| - 1] == '/' then path else path + "/";
    assert FilePath(path, a) == pre + a && FilePath(path, b) == pre + b;
    assert a == (pre + a)[|pre|..] && b == (pre + b)[|pre|..];
  }

  /** The paths of the entries, in listing order. */
  function FilePaths(path: string, entries: seq<string>): (r: seq<string>)
    ensures |r| == |entries|
    ensures forall i :: 0 <= i < |entries| ==> r[i] == FilePath(path, entries[i])
  {
    seq(|entries|, i requires 0 <= i < |entries| => FilePath(path, entries[i]))
  }

  /** A listing without repeats gives paths without repeats. */
  lemma FilePathsDistinct(path: string, entries: seq<string>)
    requires NoDuplicates(entries)
    ensures NoDuplicates(FilePaths(path, entries))
  {
    var r := FilePaths(path, entries);
    forall i, j | 0 <= i < j < |r| ensures r[i] != r[j] {
      if r[i] == r[j] {
        FilePathInjective(path, entries[i], entries[j]);
      }
    }
  }

  /** The files of a project opened on a directory: its entries' paths added
      one by one with addFile. */
  function ProjectFiles(path: string, entries: seq<string>): (r: seq<string>)
    ensures NoDuplicates(r)
  {
    AddAllAbsent([], FilePaths(path, entries))
  }

  /** The project holds exactly the directory's files, and for a real listing
      (no entry twice) in listing order. */
  lemma ProjectFilesMeaning(path: string, entries: seq<string>)
    ensures forall f :: f in ProjectFiles(path, entries) <==> f in FilePaths(path, entries)
    ensures NoDuplicates(entries) ==> ProjectFiles(path, entries) == FilePaths(path, entries)
  {
    forall f ensures f in ProjectFiles(path, entries) <==> f in FilePaths(path, entries) {
      AddAllAbsentHasAll([], FilePaths(path, entries), f);
    }
    if NoDuplicates(entries) {
      FilePathsDistinct(path, entries);
      AddAllAbsentDistinct([], FilePaths(path, entries));
    }
  }

  /** The `for` loop of openProject: addFile for each entry's path. */
  method AddEntries(project: Project, path: string, entries: seq<string>)
    requires project.files == [] && project.Valid()
    modifies project
    ensures project.files == ProjectFiles(path, entries) && project.Valid()
    ensures project.name == old(project.name)
  {
    var i := 0;
    while i < |entries|
      invariant 0 <= i <= |entries|
      invariant project.name == old(project.name)
      invariant project.files == AddAllAbsent([], FilePaths(path, entries[..i]))
      invariant project.Valid()
    {
      assert FilePaths(path, entries[..i + 1]) == FilePaths(path, entries[..i]) + [FilePath(path, entries[i])];
      AddAllAbsentSnoc([], FilePaths(path, entries[..i]), FilePath(path, entries[i]));
      project.AddFile(FilePath(path, entries[i]));
      i := i + 1;
    }
    assert entries[..i] == entries;
  }

  /** The project openProject builds: named, then filled with the entries. */
  method NewProject(name: string, path: string, entries: seq<string>) returns (p: Project)
    ensures fresh(p) && p.name == name && p.files == ProjectFiles(path, entries) && p.Valid()
  {
    p := new Project(name);
    AddEntries(p, path, entries);
  }

  class ProjectManager {
    var projects: seq<Project>

    constructor ()
      ensures projects == []
    {
      projects := [];
    }

    /** openProject: nothing happens unless the path is an existing
        directory; otherwise one new project, named after the directory and
        holding its files, is appended last. */
    method OpenProject(path: string, exists_: bool, isDir: bool, entries: seq<string>)
      modifies this
      ensures !exists_ || !isDir ==> projects == old(projects)
      ensures exists_ && isDir ==>
        && |projects| == |old(projects)| + 1
        && projects[..|old(projects)|] == old(projects)
        && var p := projects[|projects| - 1];
           fresh(p) && p.name == FileName(path) && p.files == ProjectFiles(path, entries) && p.Valid()
    {
      if !exists_ || !isDir {
        return;
      }
      var project := NewProject(FileName(path), path, entries);
      projects := projects + [project];
    }

    /** closeProject: when the project is open, every occurrence is removed;
        otherwise nothing changes. */
    method CloseProject(project: Project)
      modifies this
      ensures projects == RemoveAll(old(projects), project)
      ensures project !in projects
      ensures project !in old(projects) ==> projects == old(projects)
    {
      if project in projects {
        projects := RemoveAll(projects, project);
      }
    }

    /** getProjects: the open projects in the order they were opened. */
    function GetProjects(): (r: seq<Project>)
      reads this
      ensures r == projects
    {
      projects
    }
  }
}
