/** A project (src/project.cpp): a name fixed at construction and a list of
    files kept free of duplicates. */
module Projects {
  import opened Lists

  class Project {
    var name: string
    var files: seq<string>

    /** The list never holds a file twice. */
    ghost predicate Valid()
      reads this
    {
      NoDuplicates(files)
    }

    /** Project(name): the name as given, no files. */
    constructor (name: string)
      ensures this.name == name && files == [] && Valid()
    {
      this.name := name;
      files := [];
    }

    /** addFile: appends the file unless it is already there. */
    method AddFile(file: string)
      modifies this
      ensures files == AddAbsent(old(files), file)
      ensures file in files
      ensures file in old(files) ==> files == old(files)
      ensures file !in old(files) ==> files == old(files) + [file]
      ensures old(Valid()) ==> Valid()
      ensures name == old(name)
    {
      if file !in files {
        files := files + [file];
      }
    }

    /** removeFile: QList::removeAll, dropping every occurrence. */
    method RemoveFile(file: string)
      modifies this
      ensures files == RemoveAll(old(files), file)
      ensures file !in files
      ensures file !in old(files) ==> files == old(files)
      ensures old(Valid()) ==> Valid()
      ensures name == old(name)
    {
      if Valid() {
        RemoveAllKeepsNoDuplicates(files, file);
      }
      files := RemoveAll(files, file);
    }

    function GetName(): (r: string)
      reads this
      ensures r == name
    {
      name
    }

    function GetFiles(): (r: seq<string>)
      reads this
      ensures r == files
    {
      files
    }
  }
}
