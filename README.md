# Template controller of a calendar plugin for a note-taking application

This project models the template controller of the calendar plugin: the component that
decides which template file belongs to a periodic note (daily, weekly, monthly,
quarterly, yearly) and inserts it into the active editor. It keeps

- the **template-plugin setting** (none, the built-in templates plugin, Templater, or
  any other value) and the **delegate** it selects: updating the setting installs the
  Obsidian delegate, the Templater delegate, or the base delegate;
- a **five-slot table** of template filenames, one per note type, which the getter and
  setter reach only while a template plugin is selected;
- **template file resolution**: an empty or missing template folder yields no file;
  otherwise a filename without an extension is completed with `.md`, appended to the
  folder, and looked up in the vault. The lookup by note type does not consult the
  template-plugin setting, unlike the filename getter;
- the **bounded readiness poll** of `notify`: each invocation gives up once the retry
  count reaches 30, schedules the insertion when an editor is ready, and otherwise
  re-invokes itself with the retry count plus one.

Layout: `enums.dfy` (note types and plugin values), `host.dfy` (the host application as a
record of functions: each delegate's template folder and enablement, folder existence,
path extension, path append, and the vault's files by path), `settings.dfy` (the shared
settings record as a class with mutable fields), `wrappers.dfy` (an option type for the
source's `null` results) and `template_controller.dfy` (the controller itself).
`notify` is modelled three ways: `NotifyStep` is one invocation, `NotifyChain` is the
chain of re-invocations, and the method `Notify` runs that chain as a loop and is proved
equal to it. The readiness of the editor at each poll is an input (`editorReady(k)` for
the invocation with retry count `k`).

## Model

| member | source | states |
|---|---|---|
| TemplateControl.TemplateController.constructor | src/core/TemplateController.ts:19-22 | the controller starts with the base delegate, so it is synced with the setting exactly when the stored plugin is neither the built-in one nor Templater |
| TemplateControl.TemplateController.GetTemplatePlugin | src/core/TemplateController.ts:24-26 | returns the stored plugin value, which (when synced) selects the active delegate |
| TemplateControl.TemplateController.IsTemplatePluginEnable | src/core/TemplateController.ts:28-30 | when synced, asks the delegate selected by the stored plugin value whether it is enabled |
| TemplateControl.TemplateController.UpdateTemplatePlugin | src/core/TemplateController.ts:32-43 | stores the plugin value; the delegate becomes Obsidian for the built-in plugin, Templater for Templater, the base one otherwise; filenames unchanged; the getter then returns the value |
| TemplateControl.TemplateController.HasTemplateFolder | src/core/TemplateController.ts:45-48 | true exactly when the active delegate's folder is non-empty and exists |
| TemplateControl.TemplateController.GetTemplateFolder | src/core/TemplateController.ts:50-52 | when synced, the folder of the delegate the stored plugin value selects |
| TemplateControl.TemplateController.GetTemplateFilename | src/core/TemplateController.ts:54-77 | no filename exactly when the plugin is NONE; otherwise the filename stored for the note type |
| TemplateControl.TemplateController.SetTemplateFilename | src/core/TemplateController.ts:79-99 | under NONE the settings are unchanged; otherwise only the slot of the note type changes, the plugin value and the other four slots keep their values, and the getter returns the new name |
| TemplateControl.TemplateController.HasTemplateFile | src/core/TemplateController.ts:101-103 | true exactly when the lookup by filename finds a file, which needs a usable folder |
| TemplateControl.TemplateController.InsertTemplate | src/core/TemplateController.ts:105-117 | nothing happens when the delegate is disabled or no template file is found; otherwise the poll chain runs from retry count 0 and makes at most 30 polls |
| TemplateControl.NotifyStep | src/core/TemplateController.ts:119-139 | one invocation gives up exactly when the retry count is at least 30, schedules insertion exactly when below 30 with the editor ready, and otherwise retries with the count plus one |
| TemplateControl.NotifyChain | src/core/TemplateController.ts:119-139 | from a count of 30 or more nothing is polled or scheduled; an insertion is scheduled below the cap at a ready poll; the number of polls never exceeds 30 minus the starting count |
| TemplateControl.NotifyGivesUpIffNeverReady | src/core/TemplateController.ts:122-137 | the chain gives up exactly when no poll between the starting count and 30 finds the editor ready |
| TemplateControl.NotifyInsertsAtFirstReady | src/core/TemplateController.ts:126-137 | the insertion is scheduled at the first poll that finds the editor ready |
| TemplateControl.TemplateController.Notify | src/core/TemplateController.ts:119-139 | the retry loop ends exactly as the chain of re-invocations does |
| TemplateControl.TemplateController.GetTemplateFileByFilename | src/core/TemplateController.ts:146-153 | no file when the folder string is empty or the folder is missing, whatever the filename; otherwise the vault entry for the completed filename in the folder |
| TemplateControl.TemplateController.GetTemplateFileByNoteType | src/core/TemplateController.ts:155-180 | no file when the folder is empty or missing; otherwise the vault entry for the filename stored for the note type, with no check of the plugin value |
| TemplateControl.NoteTypeLookupIgnoresPluginGuard | src/core/TemplateController.ts:155-180 | lookup by note type equals lookup by the stored filename, even under NONE where the filename getter returns nothing |
| TemplateControl.CompletedFilename | src/core/TemplateController.ts:183-187 | the filename is kept as a prefix; exactly ".md" is appended when its extension is empty, nothing when it has one |
| TemplateControl.GetTemplateFileImpl | src/core/TemplateController.ts:182-192 | a file is found exactly when the vault holds the folder appended with the completed filename, and it is that entry |

## Left out

- Timers: the 100 ms retry delay and the 50 ms delay before insertion are not modelled; only the sequence of decisions is. The delegate that finally inserts is the one active when the timer fires, which the model does not track.
- The error log written when the poll gives up (it has no effect on state).
- Workspace inspection (active leaf, Markdown view type, active editor) is one boolean per poll, the `editorReady` input.
- The delegates' own code (`isEnable`, `getTemplateFolder`, `insertTemplateImpl`) is not part of this model; their answers are fields of the `Host` record, per delegate kind, and insertion itself is only the `InsertScheduled` outcome.
- `Path`, `PathUtil.exists` and the vault are not part of this model: path extension, append, folder existence and the vault's files are fields of `Host`. A `Path` built from a string is taken to give back the same string.
- The final `return null` after the five note-type branches of the filename getter and of the lookup by note type: the model's note type has exactly the five members, so that fallback cannot be reached.
- The retry count is an unbounded integer; the source's floating-point `number` is not modelled.
