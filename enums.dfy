/** The two enumerations the template controller dispatches on (they live in the
    plugin's enum module, which is not part of this model). */
module Enums {
  /** The calendar granularity of a periodic note. */
  datatype NoteType = Daily | Weekly | Monthly | Quarterly | Yearly

  /** The templating integration the user selected. `PluginOther` stands for any
      further member of the enumeration; the controller treats all of them alike. */
  datatype TemplatePlugin =
    | PluginNone
    | PluginObsidian
    | PluginTemplater
    | PluginOther(name: string)
}
