/** What the template controller asks of the host application: the vault, its path
    utilities and the template delegates. Their code is not part of this model, so
    each is a field of the `Host` record that the caller supplies. */
module Host {
  import opened Wrappers

  /** A file of the vault (the host's abstract file type), known only by identity. */
  datatype FileId = FileId(handle: nat)

  /** Which delegate `templateUtil` currently holds: the base utility, the one for the
      built-in templates plugin, or the one for the Templater plugin. */
  datatype Delegate = BaseTemplateUtil | ObsidianTemplateUtil | TemplaterUtil

  datatype Host = Host(
    /** the string of `templateUtil.getTemplateFolder()` for each kind of delegate */
    templateFolder: Delegate -> string,
    /** `templateUtil.isEnable()` for each kind of delegate */
    isEnable: Delegate -> bool,
    /** `PathUtil.exists(folder, vault)` */
    folderExists: string -> bool,
    /** the string of a path's extension, empty when it has none */
    extension: string -> string,
    /** the string of `folder.append(name)` */
    append: (string, string) -> string,
    /** the files `vault.getAbstractFileByPath` finds, by path */
    files: map<string, FileId>)
  {
    /** `vault.getAbstractFileByPath(path)`: the file at `path`, or null. */
    function GetAbstractFileByPath(path: string): Option<FileId>
    {
      if path in files then Some(files[path]) else None
    }
  }
}
