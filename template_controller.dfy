/** The template controller: the template-plugin setting and the delegate it selects,
    the per-note-type template filenames, the resolution of a template file in the
    vault, and the bounded poll that waits for an editor before inserting a template. */
module TemplateControl {
  import opened Wrappers
  import opened Enums
  import opened Host
  import opened Settings

  /** The number of polls after which `notify` gives up. */
  const MAX_RETRIES: int := 30

  /** The delegate kind that `updateTemplatePlugin` installs for a plugin value. */
  function DelegateFor(templatePlugin: TemplatePlugin): Delegate
  {
    if templatePlugin == PluginObsidian then ObsidianTemplateUtil
    else if templatePlugin == PluginTemplater then TemplaterUtil
    else BaseTemplateUtil
  }

  // ---------------------------------------------------------------------------
  // Template file resolution
  // ---------------------------------------------------------------------------

  /** The filename completed with the Markdown extension when it has none. */
  function CompletedFilename(host: Host, pureFilename: string): (r: string)
    ensures |pureFilename| <= |r| && r[..|pureFilename|] == pureFilename
    ensures host.extension(pureFilename) == "" ==> r[|pureFilename|..] == ".md"
    ensures host.extension(pureFilename) != "" ==> r == pureFilename
  {
    if |host.extension(pureFilename)| == 0 then pureFilename + ".md" else pureFilename
  }

  /** The file at the completed filename inside `folder`, or None when the vault has none. */
  function GetTemplateFileImpl(host: Host, folder: string, pureFilename: string): (r: Option<FileId>)
    ensures r.Some? <==> host.append(folder, CompletedFilename(host, pureFilename)) in host.files
    ensures r.Some? ==> r.value == host.files[host.append(folder, CompletedFilename(host, pureFilename))]
  {
    var newFilename := CompletedFilename(host, pureFilename);
    var fullPath := host.append(folder, newFilename);
    host.GetAbstractFileByPath(fullPath)
  }

  // ---------------------------------------------------------------------------
  // The readiness poll of `notify`
  // ---------------------------------------------------------------------------

  /** What one invocation of `notify` decides. */
  datatype Step = GiveUp | ScheduleInsert | Retry(retryCount: int)

  /** One invocation of `notify` with the given retry count, where `editorReady` says
      whether a Markdown view with an active editor was found. */
  function NotifyStep(retryCount: int, editorReady: bool): (s: Step)
    ensures s == GiveUp <==> retryCount >= MAX_RETRIES
    ensures s == ScheduleInsert <==> retryCount < MAX_RETRIES && editorReady
    ensures s.Retry? ==> s.retryCount == retryCount + 1 && !editorReady
  {
    if retryCount >= MAX_RETRIES then GiveUp
    else if editorReady then ScheduleInsert
    else Retry(retryCount + 1)
  }

  /** How a chain of `notify` invocations ends, with the number of polls (invocations
      that inspected the workspace) it made. */
  datatype Poll =
    | GaveUp(polls: nat)
    | InsertScheduled(file: FileId, retryCount: int, polls: nat)

  /** The number of polls a chain started at `retryCount` can make at most. */
  function PollBudget(retryCount: int): nat
  {
    if retryCount < MAX_RETRIES then MAX_RETRIES - retryCount else 0
  }

  /** `p` with `n` more polls counted. */
  function WithPolls(p: Poll, n: nat): Poll
  {
    match p
    case GaveUp(k) => GaveUp(k + n)
    case InsertScheduled(f, c, k) => InsertScheduled(f, c, k + n)
  }

  /** The chain of `notify` invocations started at `retryCount`: every retry re-invokes
      `notify` with the next count. `editorReady(k)` is the readiness seen by the
      invocation with retry count `k`. */
  function NotifyChain(templateFile: FileId, retryCount: int, editorReady: int -> bool): (p: Poll)
    ensures retryCount >= MAX_RETRIES ==> p == GaveUp(0)
    ensures p.GaveUp? ==> p.polls == PollBudget(retryCount)
    ensures p.InsertScheduled? ==>
      && p.file == templateFile
      && retryCount <= p.retryCount < MAX_RETRIES
      && editorReady(p.retryCount)
      && p.polls == p.retryCount - retryCount + 1
    ensures p.polls <= PollBudget(retryCount)
    decreases PollBudget(retryCount)
  {
    match NotifyStep(retryCount, editorReady(retryCount))
    case GiveUp => GaveUp(0)
    case ScheduleInsert => InsertScheduled(templateFile, retryCount, 1)
    case Retry(next) => WithPolls(NotifyChain(templateFile, next, editorReady), 1)
  }

  /** The chain gives up exactly when the editor is never ready before the cap. */
  lemma {:induction false} NotifyGivesUpIffNeverReady(templateFile: FileId, retryCount: int, editorReady: int -> bool)
    ensures NotifyChain(templateFile, retryCount, editorReady).GaveUp?
        <==> forall k :: retryCount <= k < MAX_RETRIES ==> !editorReady(k)
    decreases PollBudget(retryCount)
  {
    if retryCount < MAX_RETRIES && !editorReady(retryCount) {
      NotifyGivesUpIffNeverReady(templateFile, retryCount + 1, editorReady);
    }
  }

  /** The chain schedules the insertion at the first poll that finds the editor ready. */
  lemma {:induction false} NotifyInsertsAtFirstReady(templateFile: FileId, retryCount: int, editorReady: int -> bool)
    ensures var p := NotifyChain(templateFile, retryCount, editorReady);
      p.InsertScheduled? ==> forall k :: retryCount <= k < p.retryCount ==> !editorReady(k)
    decreases PollBudget(retryCount)
  {
    if retryCount < MAX_RETRIES && !editorReady(retryCount) {
      NotifyInsertsAtFirstReady(templateFile, retryCount + 1, editorReady);
    }
  }

  /** What `insertTemplate` leads to. */
  datatype Insertion =
    | NotEnabled
    | NoTemplateFile
    | Notified(poll: Poll)

  // ---------------------------------------------------------------------------
  // The controller
  // ---------------------------------------------------------------------------

  class TemplateController {
    /** `plugin.database.setting`, shared with the rest of the plugin */
    const setting: Setting
    /** the active delegate */
    var templateUtil: Delegate

    constructor (setting: Setting)
      ensures this.setting == setting
      ensures templateUtil == BaseTemplateUtil
      ensures Synced() <==> setting.templatePlugin != PluginObsidian && setting.templatePlugin != PluginTemplater
    {
      this.setting := setting;
      templateUtil := BaseTemplateUtil;
    }

    /** The active delegate is the one the stored plugin value selects. */
    ghost predicate Synced()
      reads this, setting
    {
      templateUtil == DelegateFor(setting.templatePlugin)
    }

    /** The stored plugin value; once synced, it names the active delegate. */
    function GetTemplatePlugin(): (templatePlugin: TemplatePlugin)
      reads this, setting
      ensures templatePlugin == setting.templatePlugin
      ensures Synced() ==> DelegateFor(templatePlugin) == templateUtil
    {
      setting.templatePlugin
    }

    /** Whether the active delegate's host plugin is enabled. */
    function IsTemplatePluginEnable(host: Host): (enabled: bool)
      reads this, setting
      ensures Synced() ==> enabled == host.isEnable(DelegateFor(setting.templatePlugin))
    {
      host.isEnable(templateUtil)
    }

    method UpdateTemplatePlugin(templatePlugin: TemplatePlugin)
      modifies this, setting
      ensures setting.templatePlugin == templatePlugin
      ensures templatePlugin == PluginObsidian ==> templateUtil == ObsidianTemplateUtil
      ensures templatePlugin == PluginTemplater ==> templateUtil == TemplaterUtil
      ensures templatePlugin != PluginObsidian && templatePlugin != PluginTemplater ==> templateUtil == BaseTemplateUtil
      ensures forall t :: setting.FilenameOf(t) == old(setting.FilenameOf(t))
      ensures GetTemplatePlugin() == templatePlugin && Synced()
    {
      setting.templatePlugin := templatePlugin;
      if templatePlugin == PluginObsidian {
        templateUtil := ObsidianTemplateUtil;
      } else if templatePlugin == PluginTemplater {
        templateUtil := TemplaterUtil;
      } else {
        templateUtil := BaseTemplateUtil;
      }
    }

    /** The template folder of the active delegate. */
    function GetTemplateFolder(host: Host): (folder: string)
      reads this, setting
      ensures Synced() ==> folder == host.templateFolder(DelegateFor(setting.templatePlugin))
    {
      host.templateFolder(templateUtil)
    }

    /** Whether the active delegate's template folder is set and exists in the vault. */
    function HasTemplateFolder(host: Host): (b: bool)
      reads this, setting
      ensures b <==> GetTemplateFolder(host) != "" && host.folderExists(GetTemplateFolder(host))
    {
      var folder := GetTemplateFolder(host);
      |folder| != 0 && host.folderExists(folder)
    }

    /** The template filename for `noteType`, or None while no template plugin is selected. */
    function GetTemplateFilename(noteType: NoteType): (r: Option<string>)
      reads setting
      ensures r.None? <==> setting.templatePlugin == PluginNone
      ensures r.Some? ==> r.value == setting.FilenameOf(noteType)
    {
      if setting.templatePlugin == PluginNone then None
      else match noteType
        case Daily => Some(setting.dailyTemplateFilename)
        case Weekly => Some(setting.weeklyTemplateFilename)
        case Monthly => Some(setting.monthlyTemplateFilename)
        case Quarterly => Some(setting.quarterlyTemplateFilename)
        case Yearly => Some(setting.yearlyTemplateFilename)
    }

    method SetTemplateFilename(noteType: NoteType, templateFilename: string)
      modifies setting
      ensures setting.templatePlugin == old(setting.templatePlugin)
      ensures old(setting.templatePlugin) == PluginNone ==> unchanged(setting)
      ensures old(setting.templatePlugin) != PluginNone ==> setting.FilenameOf(noteType) == templateFilename
      ensures forall t :: t != noteType ==> setting.FilenameOf(t) == old(setting.FilenameOf(t))
      ensures GetTemplateFilename(noteType) == if old(setting.templatePlugin) == PluginNone then None else Some(templateFilename)
      ensures old(Synced()) ==> Synced()
    {
      if setting.templatePlugin == PluginNone {
        return;
      }
      match noteType
      case Daily => setting.dailyTemplateFilename := templateFilename;
      case Weekly => setting.weeklyTemplateFilename := templateFilename;
      case Monthly => setting.monthlyTemplateFilename := templateFilename;
      case Quarterly => setting.quarterlyTemplateFilename := templateFilename;
      case Yearly => setting.yearlyTemplateFilename := templateFilename;
    }

    /** The file called `filename` in the template folder, completed with ".md" when it
        has no extension; None when the folder is empty or missing. */
    function GetTemplateFileByFilename(host: Host, filename: string): (r: Option<FileId>)
      reads this, setting
      ensures !HasTemplateFolder(host) ==> r.None?
      ensures HasTemplateFolder(host) ==> r == GetTemplateFileImpl(host, GetTemplateFolder(host), filename)
    {
      var folder := GetTemplateFolder(host);
      if |folder| == 0 || !host.folderExists(folder) then None
      else GetTemplateFileImpl(host, folder, filename)
    }

    function HasTemplateFile(host: Host, filename: string): (b: bool)
      reads this, setting
      ensures b <==> GetTemplateFileByFilename(host, filename).Some?
      ensures b ==> HasTemplateFolder(host)
    {
      GetTemplateFileByFilename(host, filename) != None
    }

    /** The template file stored for `noteType`; None when the folder is empty or
        missing. Unlike `GetTemplateFilename`, no plugin value disables it. */
    function GetTemplateFileByNoteType(host: Host, noteType: NoteType): (r: Option<FileId>)
      reads this, setting
      ensures !HasTemplateFolder(host) ==> r.None?
      ensures HasTemplateFolder(host) ==>
        r == GetTemplateFileImpl(host, GetTemplateFolder(host), setting.FilenameOf(noteType))
    {
      var folder := GetTemplateFolder(host);
      if |folder| == 0 || !host.folderExists(folder) then None
      else match noteType
        case Daily => GetTemplateFileImpl(host, folder, setting.dailyTemplateFilename)
        case Weekly => GetTemplateFileImpl(host, folder, setting.weeklyTemplateFilename)
        case Monthly => GetTemplateFileImpl(host, folder, setting.monthlyTemplateFilename)
        case Quarterly => GetTemplateFileImpl(host, folder, setting.quarterlyTemplateFilename)
        case Yearly => GetTemplateFileImpl(host, folder, setting.yearlyTemplateFilename)
    }

    /** Polls for a ready editor from `retryCount` on and reports how the chain ends. */
    method Notify(templateFile: FileId, retryCount: int, editorReady: int -> bool) returns (p: Poll)
      ensures p == NotifyChain(templateFile, retryCount, editorReady)
    {
      var count, polls := retryCount, 0;
      while count < MAX_RETRIES && !editorReady(count)
        invariant NotifyChain(templateFile, retryCount, editorReady)
               == WithPolls(NotifyChain(templateFile, count, editorReady), polls)
        decreases MAX_RETRIES - count
      {
        count, polls := count + 1, polls + 1;
      }
      if count >= MAX_RETRIES {
        p := GaveUp(polls);
      } else {
        p := InsertScheduled(templateFile, count, polls + 1);
      }
    }

    /** Inserts the template of `noteType` once an editor is ready. */
    method InsertTemplate(host: Host, noteType: NoteType, editorReady: int -> bool) returns (r: Insertion)
      ensures r == NotEnabled <==> !IsTemplatePluginEnable(host)
      ensures r == NoTemplateFile <==> IsTemplatePluginEnable(host) && GetTemplateFileByNoteType(host, noteType).None?
      ensures r.Notified? ==>
        && GetTemplateFileByNoteType(host, noteType).Some?
        && r.poll == NotifyChain(GetTemplateFileByNoteType(host, noteType).value, 0, editorReady)
        && r.poll.polls <= MAX_RETRIES
    {
      if !IsTemplatePluginEnable(host) {
        return NotEnabled;
      }
      var templateFile := GetTemplateFileByNoteType(host, noteType);
      if templateFile.None? {
        return NoTemplateFile;
      }
      var poll := Notify(templateFile.value, 0, editorReady);
      r := Notified(poll);
    }
  }

  /** Looking a template up by note type gives the same file as looking up the stored
      filename, even while no template plugin is selected and `GetTemplateFilename`
      reports no filename. */
  lemma NoteTypeLookupIgnoresPluginGuard(c: TemplateController, host: Host, noteType: NoteType)
    ensures c.GetTemplateFileByNoteType(host, noteType)
         == c.GetTemplateFileByFilename(host, c.setting.FilenameOf(noteType))
    ensures c.setting.templatePlugin == PluginNone ==> c.GetTemplateFilename(noteType).None?
  {
  }
}
